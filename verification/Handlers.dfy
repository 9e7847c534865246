/** handleWS with wsPostSubmit, and Stream with streamPostSubmit, as the program they are. The two
    differ in three places, marked by `transport`. The handler keeps its own guarantee as `Valid`:
    one job at a time, and the audio variables on the newest one. */
module Handlers {
  import opened Jobs
  import opened Routing
  import opened Connections
  import opened ConnectionTheorems

  class StreamHandler {
    const transport: Transport
    var jobActive: bool
    var curAudioCh: Option<nat>
    var closeAudio: Option<nat>
    var sess: bool            // sess != nil
    var stickyPool: string
    // channels made, Submits accepted, and where the handler stands
    var channels: seq<Channel>
    var jobs: seq<Accepted>
    var submits: nat
    var at: Handler
    var hung: bool

    function Now(): Conn
      reads this
    {
      Conn(at, jobActive, curAudioCh, closeAudio, sess, stickyPool, channels, jobs, submits, hung)
    }

    ghost predicate Valid()
      reads this
    {
      OneAtATime(Now()) && AudioBooks(Now())
    }

    constructor (transport: Transport)
      ensures Valid() && Now() == Init() && this.transport == transport
    {
      this.transport := transport;
      jobActive, curAudioCh, closeAudio, sess, stickyPool := false, None, None, false, "";
      channels, jobs, submits, at, hung := [], [], 0, Idle, false;
    }

    method CloseCurrent()
      requires closeAudio.Some? ==> closeAudio.value < |channels|
      modifies this`channels
      ensures Now() == CloseAudio(old(Now()))
    {
      if closeAudio.Some? {
        var n := closeAudio.value;
        channels := channels[n := channels[n].(closed := true)];
      }
    }

    method Return()
      requires closeAudio.Some? ==> closeAudio.value < |channels|
      modifies this
      ensures Now() == Leave(old(Now()))
    {
      CloseCurrent();
      at := Gone;
    }

    /** Soft pool affinity. */
    method PickPool(m: Message) returns (pool: string)
      requires m.Start?
      ensures pool == ChosenPool(stickyPool, m)
    {
      pool := m.pool;
      if pool == "" && stickyPool != "" {
        pool := stickyPool;
      }
    }

    /** A start that reaches Submit finds no job in flight. */
    method OnStart(m: Message)
      requires Valid() && m.Start? && at.Idle?
      modifies this
      ensures at.Submitting? ==> AllSettled(Now())
      ensures Now() == Begin(transport, old(Now()), m)
    {
      hide ChosenPool, AudioBooks;
      if jobActive {
        return;
      }
      if m.sessionType != "" && !sess {
        sess := true;
      }
      var pool := PickPool(m);
      if m.service == "stt" {
        var audioCh := |channels|;
        channels := channels + [Channel([], false)];
        curAudioCh, closeAudio := Some(audioCh), Some(audioCh);
        at := Submitting(Job(submits, "stt", pool, m.priority, SttPayload, true, 32));
      } else if m.service == "tts" {
        if m.text == "" {
          return;
        }
        curAudioCh, closeAudio := None, None;
        at := Submitting(Job(submits, "tts", pool, m.priority, TtsPayload(m.text, m.voice), false, 32));
      } else if transport.WebSocket? {
        curAudioCh, closeAudio := None, None;
        at := Submitting(Job(submits, m.service, pool, m.priority, NoPayload, false, 32));
      } else {
        at := Submitting(Job(submits, m.service, "", 0, NoPayload, false, 32));
      }
    }

    method OnAnswer(answer: Answer)
      requires Valid() && at.Submitting?
      modifies this
      ensures Now() == Answered(transport, old(Now()), answer)
    {
      hide Known, CloseAudio, AudioBooks, OneAtATime;
      CloserInRange(Now());
      var job := at.job;
      submits := submits + 1;
      if answer.Err? {
        if !sess {
          Return();
          return;
        }
        at := Idle;
        return;
      }
      if Known(job.service) {
        if sess && stickyPool == "" {
          stickyPool := answer.value.pool;
        }
        jobs := jobs + [Accepted(job, answer.value, sess, curAudioCh, Running, true)];
        at := Arming;
      } else {
        jobs := jobs + [Accepted(job, answer.value, sess, None, Closed, false)];
        if transport.WebSocket? {
          at := Arming;
        } else if !sess {
          Return();
          return;
        } else {
          at := Idle;
        }
      }
    }

    /** A frame joins the channel of the newest job, which is in flight unless the flag is stuck, or none. */
    method OnAudio(chunk: Chunk, room: bool)
      requires Valid() && at.Idle?
      modifies this`channels, this`at
      ensures Now() == old(Now()) || (jobs != [] && TakesFrame(old(Now()), Now(), jobs[|jobs| - 1], chunk))
      ensures Now() == Hear(old(Now()), chunk, room)
    {
      hide OneAtATime, TakesFrame;
      FrameTaken(Now(), chunk, room);
      if jobActive && curAudioCh.Some? {
        var n := curAudioCh.value;
        if channels[n].closed {
          at := Panicked;
        } else if room {
          channels := channels[n := channels[n].(sent := channels[n].sent + [chunk])];
        }
      }
    }

    /** One action of the handler or of a job's goroutines. */
    method Act(a: Action)
      requires Valid() && Enabled(Now(), a) && Refuses(Now(), a)
      modifies this
      ensures Valid() && Now() == Step(transport, old(Now()), a)
    {
      hide Begin, Answered, Hear, CloseAudio, OneAtATime, AudioBooks, TakesFrame;
      CloserInRange(Now());
      OneAtATimeStep(transport, Now(), a);
      AudioBooksStep(transport, Now(), a);
      match a
      case Receive(m, room) =>
        match m {
          case Start(_, _, _, _, _, _) => OnStart(m);
          case Audio(chunk) => OnAudio(chunk, room);
          case Stop =>
            if jobActive {
              CloseCurrent();
            }
          case Other =>
        }
      case Respond(answer) => OnAnswer(answer);
      case Arm => jobActive, at := true, Idle;
      case CloseResult(k) => jobs := SetPhase(jobs, k, Closed);
      case Clear(k) => jobs, jobActive := SetPhase(jobs, k, Cleared), false;
      case Finish(k) =>
        var shortLived := !jobs[k].oriented;
        jobs := SetPhase(jobs, k, Finished);
        if shortLived && transport.WebSocket? {
          hung := true;
        }
      case HangUp => Return();
    }

    /** The whole connection under one schedule: at its end at most the newest job is in flight, the
        flag is stuck exactly if some job's Store(false) overtook its own Store(true), and a channel
        is closed exactly if a stop or the handler's return closed it. */
    method Serve(run: seq<Action>)
      requires Valid() && Now() == Init() && IsRun(transport, Init(), run)
      modifies this
      ensures Valid()
      ensures Wedged(Now()) <==> Overtaken(run)
      ensures forall n: nat :: n < |channels| ==>
        (channels[n].closed <==> StoppedIn(transport, run, n) || (at.Gone? && closeAudio == Some(n)))
      ensures Now() == Exec(transport, Init(), run)
    {
      hide Step, Enabled, Refuses, OneAtATime, AudioBooks, StoppedIn, Overtaken, Wedged;
      for i := 0 to |run|
        invariant Valid() && IsRun(transport, Now(), run[i..])
        invariant Exec(transport, Now(), run[i..]) == Exec(transport, Init(), run)
      {
        assert run[i..][0] == run[i] && run[i..][1..] == run[i + 1..];
        Act(run[i]);
      }
      FlagAlong(transport, run);
      ClosedBooksAlong(transport, run);
    }
  }

  lemma CloserInRange(c: Conn)
    requires AudioBooks(c)
    ensures c.closer.Some? ==> c.closer.value < |c.channels|
    ensures c.cur.Some? ==> c.cur.value < |c.channels|
  {
  }
}
