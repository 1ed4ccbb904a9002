/**
  The transcription cog of cogs/Winston.py: the `/transcribe` command that
  queues jobs, the once-a-second worker that downloads, converts,
  transcribes and delivers one job, and the lifecycle of the local
  speech-to-text server (lazy start, busy bracket, idle shutdown).

  Each `async with self._stt_lock` block and each worker tick runs as one
  atomic step. What the outside world answers (exit codes, the free-port
  probes, whether the server process started, the transcript, the clock)
  is passed in as `TickInputs`.
 */
module Winston {
  import opened Wrappers
  import opened Strings
  import opened MediaSources
  import opened Supervisor
  import opened Pipeline

  // ------------------------------------------------------- the STT server

  const SttHost: string := "127.0.0.1"
  const SttEndpoint: string := "/inference"
  const SttLogDir: string := "./logs/subprocesses"

  /** Seconds of idleness after which the server is shut down. */
  const SttIdleTimeout: int := 5 * 60

  /** A running STT client: where it listens and where its process logs go. */
  datatype SttClient = SttClient(host: string, port: nat, endpoint: string, logDir: string)

  /** `create_client()`: a free port, then the client on it; `None` when either raises. */
  function StartClient(portAnswers: seq<nat>, spawnOk: bool): (c: Option<SttClient>)
    requires |portAnswers| >= PortAttempts
    ensures c.Some? <==> FreePort(portAnswers).Allocated? && spawnOk
    ensures c.Some? ==> c.value.host == SttHost && c.value.endpoint == SttEndpoint && c.value.logDir == SttLogDir
    ensures c.Some? ==> c.value.port != 0 && exists k :: 0 <= k < PortAttempts && portAnswers[k] == c.value.port
    ensures c.Some? ==> c.value.port == FreePort(portAnswers).port
  {
    var a := FreePort(portAnswers);
    if a.Unable? || !spawnOk then None else Some(SttClient(SttHost, a.port, SttEndpoint, SttLogDir))
  }

  /**
    The idle sweep's decision: a server that is present, not busy, and has
    gone `SttIdleTimeout` seconds without use is shut down.
   */
  predicate IdleExpired(present: bool, busy: bool, lastUsed: Option<int>, now: int) {
    present && !busy && lastUsed.Some? && now - lastUsed.value >= SttIdleTimeout
  }

  // ------------------------------------------------------ one worker tick

  /**
    What the outside world answers during one tick. An exit code of `None`
    means the subprocess could not be started at all (the call raised).
   */
  datatype TickInputs = TickInputs(
    downloadExit: Option<int>,   // yt-dlp
    convertExit: Option<int>,    // ffmpeg
    stderrDecodes: bool,         // a failed step's stderr is valid UTF-8
    portAnswers: seq<nat>,       // what each free-port probe got from the OS
    spawnOk: bool,               // the STT server process started
    warmedAt: int,               // clock after the warm-up sleep
    wavRead: bool,               // the converted WAV could be read
    transcript: Option<string>,  // `None` when `stt.transcribe` raised
    finishedAt: int,             // clock in the `finally` of the busy bracket
    elapsed: nat,                // `int(perf_counter() - start_time)`
    saved: bool)                 // the transcript file could be written

  /**
    The last use after the server step when no transcription follows: the
    end of the warm-up when a server was started just now, otherwise the
    last use as it was.
   */
  function WarmedUse(w: TickInputs, sttUp: bool, lastUsed: Option<int>): Option<int>
    requires |w.portAnswers| >= PortAttempts
  {
    if !sttUp && StartClient(w.portAnswers, w.spawnOk).Some? then Some(w.warmedAt) else lastUsed
  }

  /** How a dequeued job ends. `Crashed` is an exception the worker does not catch. */
  datatype Exit =
    | DownloadFailed
    | ConversionFailed
    | TranscriptionFailed
    | Crashed
    | Delivered(elapsed: string, delivery: Delivery)

  datatype TickOutcome = Idle | Processed(ticket: Ticket, exit: Exit)

  /** Both subprocesses ran and exited with status 0. */
  predicate ReachesStt(w: TickInputs) {
    w.downloadExit == Some(0) && w.convertExit == Some(0)
  }

  /** The server is up when the transcription step begins. */
  predicate SttAvailable(w: TickInputs, sttUp: bool)
    requires |w.portAnswers| >= PortAttempts
  {
    sttUp || StartClient(w.portAnswers, w.spawnOk).Some?
  }

  /**
    How the pipeline ends for `job` given the world's answers and whether a
    server was already running, in the order the worker takes the steps.
   */
  function PipelineExit(job: Job, w: TickInputs, sttUp: bool): Exit
    requires |w.portAnswers| >= PortAttempts
  {
    if w.downloadExit.None? then Crashed
    else if w.downloadExit.value != 0 then (if w.stderrDecodes then DownloadFailed else Crashed)
    else if w.convertExit.None? then Crashed
    else if w.convertExit.value != 0 then (if w.stderrDecodes then ConversionFailed else Crashed)
    else if !SttAvailable(w, sttUp) then Crashed
    else if !w.wavRead then Crashed
    else if w.transcript.None? then TranscriptionFailed
    else if !w.saved then Crashed
    else Delivered(ElapsedText(w.elapsed), DeliveryOf(w.transcript.value, job.mediaId))
  }

  /**
    A job is delivered exactly when every step succeeds, and then the
    message carries the elapsed time and the transcript inline or as a file.
   */
  lemma DeliveredIffAllSucceed(job: Job, w: TickInputs, sttUp: bool)
    requires |w.portAnswers| >= PortAttempts
    ensures PipelineExit(job, w, sttUp).Delivered? <==>
            ReachesStt(w) && SttAvailable(w, sttUp) && w.wavRead && w.transcript.Some? && w.saved
    ensures PipelineExit(job, w, sttUp).Delivered? ==>
            ReadElapsed(PipelineExit(job, w, sttUp).elapsed) == Some(w.elapsed) &&
            (PipelineExit(job, w, sttUp).delivery.Inline? <==> |w.transcript.value| <= InlineLimit)
  {
    if PipelineExit(job, w, sttUp).Delivered? {
      ElapsedRoundTrip(w.elapsed);
    }
  }

  /**
    Each handled failure is reported for exactly one cause: a step that
    exited non-zero with readable stderr, or a transcription that raised
    after every earlier step succeeded.
   */
  lemma HandledFailures(job: Job, w: TickInputs, sttUp: bool)
    requires |w.portAnswers| >= PortAttempts
    ensures PipelineExit(job, w, sttUp) == DownloadFailed <==>
            w.downloadExit.Some? && w.downloadExit.value != 0 && w.stderrDecodes
    ensures PipelineExit(job, w, sttUp) == ConversionFailed <==>
            w.downloadExit == Some(0) && w.convertExit.Some? && w.convertExit.value != 0 && w.stderrDecodes
    ensures PipelineExit(job, w, sttUp) == TranscriptionFailed <==>
            ReachesStt(w) && SttAvailable(w, sttUp) && w.wavRead && w.transcript.None?
  {
  }

  /** A failed download or conversion is reported whatever the later steps would have done. */
  lemma EarlyExitsIgnoreLaterSteps(job: Job, w: TickInputs, v: TickInputs, sttUp: bool, sttUp': bool)
    requires |w.portAnswers| >= PortAttempts && |v.portAnswers| >= PortAttempts
    requires v.downloadExit == w.downloadExit && v.convertExit == w.convertExit && v.stderrDecodes == w.stderrDecodes
    requires !ReachesStt(w)
    ensures PipelineExit(job, v, sttUp') == PipelineExit(job, w, sttUp)
    ensures PipelineExit(job, w, sttUp) in {DownloadFailed, ConversionFailed, Crashed}
  {
  }

  /** A server that is already running is reused: the port probes and the spawn are not consulted. */
  lemma RunningServerIsReused(job: Job, w: TickInputs, ports: seq<nat>, spawnOk: bool)
    requires |w.portAnswers| >= PortAttempts && |ports| >= PortAttempts
    ensures PipelineExit(job, w.(portAnswers := ports, spawnOk := spawnOk), true) == PipelineExit(job, w, true)
  {
  }

  // ------------------------------------------------------------------ the cog

  /** `WinstonCog`: the registered strategies, the job lists and the STT server state. */
  class WinstonCog {
    const sources: seq<Source>
    /** The `asyncio.Queue` of submitted jobs, oldest first. */
    var queue: seq<Ticket>
    var pendingJobs: seq<Ticket>
    var activeJobs: seq<Ticket>
    /** Identity of the next job object created. */
    var nextTicket: nat
    var stt: Option<SttClient>
    var sttBusy: bool
    var sttLastUsed: Option<int>

    /**
      The strategies are YouTube then Reddit; every queued job is pending;
      active jobs precede queued ones in submission order, and each job
      object is distinct.
     */
    ghost predicate Valid()
      reads this
    {
      && sources == Registered
      && pendingJobs == queue
      && Increasing(activeJobs + queue)
      && IssuedBefore(activeJobs + queue, nextTicket)
    }

    constructor()
      ensures Valid()
      ensures queue == [] && activeJobs == [] && nextTicket == 0
      ensures stt.None? && !sttBusy && sttLastUsed.None?
    {
      sources := Registered;
      queue := [];
      pendingJobs := [];
      activeJobs := [];
      nextTicket := 0;
      stt := None;
      sttBusy := false;
      sttLastUsed := None;
    }

    /**
      `/transcribe link`: the first strategy that accepts the link builds
      the job, which is added to the pending list and the queue.
     */
    method Transcribe(requester: Requester, link: string) returns (r: Submission)
      requires Valid()
      modifies this
      ensures Valid()
      ensures r == Resolve(sources, requester, link)
      ensures r.Accepted? ==> queue == old(queue) + [Ticket(old(nextTicket), r.job)] && nextTicket == old(nextTicket) + 1
      ensures !r.Accepted? ==> queue == old(queue) && nextTicket == old(nextTicket)
      ensures activeJobs == old(activeJobs)
      ensures stt == old(stt) && sttBusy == old(sttBusy) && sttLastUsed == old(sttLastUsed)
    {
      r := Submit(requester, link);
      if r.Accepted? {
        Enqueue(r.job);
      }
    }

    /** The checks `/transcribe` makes before anything is queued. */
    method Submit(requester: Requester, link: string) returns (r: Submission)
      ensures r == Resolve(sources, requester, link)
    {
      var i := FindHandler(link);
      if i == |sources| {
        return Unsupported;
      }
      var job := CreateJob(sources[i], requester, link);
      if job.None? {
        return Malformed;
      }
      r := Accepted(job.value);
    }

    /** `pending_jobs.append(job)` and `queue.put(job)` for a new job object. */
    method Enqueue(job: Job)
      requires Valid()
      modifies this
      ensures Valid()
      ensures queue == old(queue) + [Ticket(old(nextTicket), job)] && nextTicket == old(nextTicket) + 1
      ensures activeJobs == old(activeJobs)
      ensures stt == old(stt) && sttBusy == old(sttBusy) && sttLastUsed == old(sttLastUsed)
    {
      var t := Ticket(nextTicket, job);
      AppendFresh(activeJobs + queue, t, nextTicket);
      assert activeJobs + (queue + [t]) == activeJobs + queue + [t];
      pendingJobs := pendingJobs + [t];
      queue := queue + [t];
      nextTicket := nextTicket + 1;
    }

    /** The `for s in self.sources` scan for the first strategy that can handle `link`. */
    method FindHandler(link: string) returns (i: nat)
      ensures i == FirstHandler(sources, link)
    {
      i := 0;
      while i < |sources| && !CanHandle(sources[i], link)
        invariant i <= FirstHandler(sources, link)
      {
        BeforeFirstHandler(sources, link, i);
        i := i + 1;
      }
    }

    /** `/queue`: how many jobs are pending and active. */
    method QueueSizes() returns (pending: nat, active: nat)
      requires Valid()
      ensures pending == |queue| && active == |activeJobs|
      ensures pending == 0 && active == 0 <==> queue == [] && activeJobs == []
    {
      pending := |pendingJobs|;
      active := |activeJobs|;
    }

    /**
      `_ensure_stt_running`: a running server is left alone; otherwise a
      client is created on a free port and, after the warm-up, marked as
      just used. `raised` is the exception from `get_free_port` or the spawn.
     */
    method EnsureSttRunning(portAnswers: seq<nat>, spawnOk: bool, warmedAt: int) returns (raised: bool)
      requires |portAnswers| >= PortAttempts
      modifies this
      ensures old(stt).Some? ==> !raised && stt == old(stt) && sttLastUsed == old(sttLastUsed)
      ensures old(stt).None? ==> (raised <==> StartClient(portAnswers, spawnOk).None?)
      ensures old(stt).None? && raised ==> stt.None? && sttLastUsed == old(sttLastUsed)
      ensures old(stt).None? && !raised ==> stt == StartClient(portAnswers, spawnOk) && sttLastUsed == Some(warmedAt)
      ensures !raised ==> stt.Some?
      ensures queue == old(queue) && pendingJobs == old(pendingJobs) && activeJobs == old(activeJobs)
      ensures nextTicket == old(nextTicket) && sttBusy == old(sttBusy)
    {
      if stt.Some? {
        return false;
      }
      var port, calls := GetFreePort(portAnswers);
      if port.Unable? || !spawnOk {
        return true;
      }
      stt := Some(SttClient(SttHost, port.port, SttEndpoint, SttLogDir));
      sttLastUsed := Some(warmedAt);
      raised := false;
    }

    /**
      The busy bracket around `stt.transcribe`: a missing client fails like a
      failed transcription, and the `finally` always clears `busy` and
      records the use.
     */
    method RunTranscription(answer: Option<string>, now: int) returns (transcript: Option<string>)
      modifies this
      ensures transcript == (if old(stt).Some? then answer else None)
      ensures !sttBusy && sttLastUsed == Some(now)
      ensures stt == old(stt)
      ensures queue == old(queue) && pendingJobs == old(pendingJobs) && activeJobs == old(activeJobs)
      ensures nextTicket == old(nextTicket)
    {
      sttBusy := true;
      if stt.None? {
        transcript := None;
      } else {
        transcript := answer;
      }
      sttBusy := false;
      sttLastUsed := Some(now);
    }

    /** `self.active_jobs.remove(job)` on one of the handled exits. */
    method Finish(t: Ticket)
      requires Valid() && t in activeJobs
      modifies this
      ensures Valid()
      ensures activeJobs == Remove(old(activeJobs), t)
      ensures queue == old(queue) && pendingJobs == old(pendingJobs) && nextTicket == old(nextTicket)
      ensures stt == old(stt) && sttBusy == old(sttBusy) && sttLastUsed == old(sttLastUsed)
    {
      RemoveBeforeQueue(activeJobs, queue, t, nextTicket);
      activeJobs := Remove(activeJobs, t);
    }

    /** `queue.get()`, then the move of the job from `pending_jobs` to `active_jobs`. */
    method TakeNext() returns (t: Ticket)
      requires Valid() && queue != []
      modifies this
      ensures Valid()
      ensures t == old(queue)[0] && queue == old(queue)[1..] && activeJobs == old(activeJobs) + [t]
      ensures t in activeJobs && Remove(activeJobs, t) == old(activeJobs)
      ensures nextTicket == old(nextTicket)
      ensures stt == old(stt) && sttBusy == old(sttBusy) && sttLastUsed == old(sttLastUsed)
    {
      t := queue[0];
      HeadNotActive(activeJobs, queue);
      assert activeJobs + queue == activeJobs + [t] + queue[1..];
      queue := queue[1..];
      if t in pendingJobs {
        pendingJobs := Remove(pendingJobs, t);
      }
      activeJobs := activeJobs + [t];
      assert pendingJobs == queue by {
        assert IndexOf(old(pendingJobs), t) == 0;
      }
      RemoveAppended(old(activeJobs), t);
    }

    /**
      One run of the `worker` loop: take the oldest queued job, move it from
      pending to active and carry it through download, conversion,
      transcription and delivery. Every handled exit removes the job from
      the active list; an uncaught exception leaves it there.
     */
    method WorkerTick(w: TickInputs) returns (outcome: TickOutcome)
      requires Valid() && |w.portAnswers| >= PortAttempts
      modifies this
      ensures Valid()
      ensures outcome.Idle? <==> old(queue) == []
      ensures outcome.Idle? ==> queue == old(queue) && activeJobs == old(activeJobs)
      ensures outcome.Idle? ==> stt == old(stt) && sttBusy == old(sttBusy) && sttLastUsed == old(sttLastUsed)
      ensures outcome.Processed? ==> outcome.ticket == old(queue)[0] && queue == old(queue)[1..]
      ensures outcome.Processed? ==> outcome.exit == PipelineExit(outcome.ticket.job, w, old(stt).Some?)
      ensures outcome.Processed? ==>
                activeJobs == if outcome.exit.Crashed? then old(activeJobs) + [outcome.ticket] else old(activeJobs)
      ensures nextTicket == old(nextTicket)
      ensures !ReachesStt(w) ==> stt == old(stt) && sttBusy == old(sttBusy) && sttLastUsed == old(sttLastUsed)
      ensures ReachesStt(w) && old(queue) != [] ==>
                stt == (if old(stt).Some? then old(stt) else StartClient(w.portAnswers, w.spawnOk))
      ensures ReachesStt(w) && old(queue) != [] && SttAvailable(w, old(stt).Some?) && w.wavRead ==>
                !sttBusy && sttLastUsed == Some(w.finishedAt)
      ensures ReachesStt(w) && old(queue) != [] && !(SttAvailable(w, old(stt).Some?) && w.wavRead) ==>
                sttBusy == old(sttBusy) && sttLastUsed == WarmedUse(w, old(stt).Some?, old(sttLastUsed))
    {
      if queue == [] {
        return Idle;
      }
      var t := TakeNext();
      var exit := RunJob(t, w);
      outcome := Processed(t, exit);
    }

    /**
      The steps of the `worker` body after the job became active: download,
      conversion, transcription and delivery. Every handled exit removes the
      job from the active list; an uncaught exception leaves it there.
     */
    method RunJob(t: Ticket, w: TickInputs) returns (exit: Exit)
      requires Valid() && t in activeJobs && |w.portAnswers| >= PortAttempts
      modifies this
      ensures Valid()
      ensures exit == PipelineExit(t.job, w, old(stt).Some?)
      ensures activeJobs == if exit.Crashed? then old(activeJobs) else Remove(old(activeJobs), t)
      ensures queue == old(queue) && nextTicket == old(nextTicket)
      ensures !ReachesStt(w) ==> stt == old(stt) && sttBusy == old(sttBusy) && sttLastUsed == old(sttLastUsed)
      ensures ReachesStt(w) ==> stt == (if old(stt).Some? then old(stt) else StartClient(w.portAnswers, w.spawnOk))
      ensures ReachesStt(w) && SttAvailable(w, old(stt).Some?) && w.wavRead ==>
                !sttBusy && sttLastUsed == Some(w.finishedAt)
      ensures ReachesStt(w) && !(SttAvailable(w, old(stt).Some?) && w.wavRead) ==>
                sttBusy == old(sttBusy) && sttLastUsed == WarmedUse(w, old(stt).Some?, old(sttLastUsed))
    {
      // Step 1: download.
      if w.downloadExit.None? {
        return Crashed;
      }
      if w.downloadExit.value != 0 {
        if !w.stderrDecodes {
          return Crashed;
        }
        Finish(t);
        return DownloadFailed;
      }
      // Step 2: conversion to mono 16 kHz WAV.
      if w.convertExit.None? {
        return Crashed;
      }
      if w.convertExit.value != 0 {
        if !w.stderrDecodes {
          return Crashed;
        }
        Finish(t);
        return ConversionFailed;
      }
      // Step 3: the server, then the WAV file.
      var raised := EnsureSttRunning(w.portAnswers, w.spawnOk, w.warmedAt);
      if raised {
        return Crashed;
      }
      if !w.wavRead {
        return Crashed;
      }
      // Step 4: transcription.
      var transcript := RunTranscription(w.transcript, w.finishedAt);
      if transcript.None? {
        Finish(t);
        return TranscriptionFailed;
      }
      // Steps 5 to 7: elapsed time, saved file, result message.
      var elapsedText := ElapsedText(w.elapsed);
      if !w.saved {
        return Crashed;
      }
      var delivery := DeliveryOf(transcript.value, t.job.mediaId);
      Finish(t);
      exit := Delivered(elapsedText, delivery);
    }

    /**
      `stt_idle_task`: the unguarded pre-check, then, under the lock, the
      re-check of presence and busyness before the server is closed.
      `closed` says whether `stt.close()` was called.
     */
    method IdleSweep(now: int) returns (closed: bool)
      modifies this
      ensures closed <==> old(IdleExpired(stt.Some?, sttBusy, sttLastUsed, now))
      ensures closed ==> stt.None? && sttLastUsed.None?
      ensures !closed ==> stt == old(stt) && sttLastUsed == old(sttLastUsed)
      ensures sttBusy == old(sttBusy)
      ensures queue == old(queue) && pendingJobs == old(pendingJobs) && activeJobs == old(activeJobs)
      ensures nextTicket == old(nextTicket)
    {
      if stt.None? || sttBusy || sttLastUsed.None? {
        return false;
      }
      if now - sttLastUsed.value < SttIdleTimeout {
        return false;
      }
      closed := SweepLocked();
    }

    /** The locked half of the sweep: re-check, close, forget the last use. */
    method SweepLocked() returns (closed: bool)
      modifies this
      ensures closed <==> old(stt).Some? && !old(sttBusy)
      ensures closed ==> stt.None? && sttLastUsed.None?
      ensures !closed ==> stt == old(stt) && sttLastUsed == old(sttLastUsed)
      ensures sttBusy == old(sttBusy)
      ensures queue == old(queue) && pendingJobs == old(pendingJobs) && activeJobs == old(activeJobs)
      ensures nextTicket == old(nextTicket)
    {
      if stt.None? || sttBusy {
        return false;
      }
      stt := None;
      sttLastUsed := None;
      closed := true;
    }

    /** `cog_unload`: the server is closed when one is running. */
    method Unload() returns (closesStt: bool)
      ensures closesStt <==> stt.Some?
    {
      closesStt := stt.Some?;
    }
  }

  // ---------------------------------------------------------------- helpers

  /** A ticket issued now goes after every existing one. */
  lemma AppendFresh(s: seq<Ticket>, t: Ticket, next: nat)
    requires Increasing(s) && IssuedBefore(s, next) && t.id == next
    ensures Increasing(s + [t]) && IssuedBefore(s + [t], next + 1)
  {
    var r := s + [t];
    forall i, j | 0 <= i < j < |r| ensures r[i].id < r[j].id {
      assert r[i] == s[i];
    }
  }

  /** Removing an active job keeps active-then-queued in submission order. */
  lemma RemoveBeforeQueue(active: seq<Ticket>, queue: seq<Ticket>, t: Ticket, next: nat)
    requires t in active && Increasing(active + queue) && IssuedBefore(active + queue, next)
    ensures Increasing(Remove(active, t) + queue) && IssuedBefore(Remove(active, t) + queue, next)
  {
    var all := active + queue;
    var i := IndexOf(active, t);
    var r := Remove(active, t) + queue;
    assert forall k :: 0 <= k < |r| ==> r[k] == all[if k < i then k else k + 1];
  }
}
