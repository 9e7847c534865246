/** stt.Client: the connected flag, the life cycle of listeningCh and the writes it allows.
    Each method is proved against a step on values, and the connection model takes exactly those. */
module SttClients {
  import opened Jobs
  import opened Workers
  import opened SttSessions

  /** What the client's fields amount to: channels are numbered in the order they are made. */
  datatype View = View(connected: bool, cur: nat, shut: set<nat>, events: seq<Event>)

  /** Starting a session on a connected client makes a fresh, open channel before the write. */
  function Started(v: View): View {
    if v.connected then View(true, v.cur + 1, v.shut, v.events + [WroteStart(v.cur + 1)]) else v
  }

  function Wrote(v: View, e: Event): View {
    if v.connected then v.(events := v.events + [e]) else v
  }

  function HungUp(v: View): View {
    if v.connected then v.(connected := false, events := v.events + [WroteClose]) else v
  }

  class Client {
    var connected: bool
    var listening: bool
    var made: nat            // channels made so far
    var listeningCh: nat     // the current one
    var shut: set<nat>       // the closed ones
    ghost var events: seq<Event>

    ghost predicate Valid()
      reads this
    {
      (made == 0 ==> !connected) && (made > 0 ==> listeningCh + 1 == made) && forall ch | ch in shut :: ch < made
    }

    ghost function Now(): View
      reads this
    {
      View(connected, listeningCh, shut, events)
    }

    constructor ()
      ensures Valid() && !connected && made == 0 && shut == {} && events == []
    {
      connected, listening, made, listeningCh, shut, events := false, false, 0, 0, {}, [];
    }

    /** `dialed` is the outcome of the dial and handshake; the server greets with listening. */
    method Connect(dialed: bool) returns (ok: bool)
      requires Valid()
      modifies this
      ensures Valid() && ok == (dialed && !old(connected))
      ensures ok ==> connected && made == old(made) + 1 && listeningCh == old(made) && shut == old(shut) + {listeningCh}
      ensures !ok ==> Now() == old(Now()) && made == old(made)
      ensures events == old(events)
    {
      if connected || !dialed {
        return false;
      }
      connected, listening := true, true;
      listeningCh, made := made, made + 1;
      shut := shut + {listeningCh};
      ok := true;
    }

    method StartRecognition(written: bool) returns (ok: bool)
      requires Valid()
      modifies this
      ensures Valid() && ok == (old(connected) && written)
      ensures Now() == Started(old(Now()))
      ensures connected ==> listeningCh !in shut
    {
      if !connected {
        return false;
      }
      listeningCh, made := made, made + 1;
      events := events + [WroteStart(listeningCh)];
      ok := written;
    }

    method SendAudioChunk(written: bool) returns (ok: bool)
      requires Valid()
      modifies this`events
      ensures Valid() && ok == (connected && written)
      ensures Now() == Wrote(old(Now()), WroteChunk)
    {
      if !connected {
        return false;
      }
      events := events + [WroteChunk];
      ok := written;
    }

    method StopRecognition(written: bool) returns (ok: bool)
      requires Valid()
      modifies this`events
      ensures Valid() && ok == (connected && written)
      ensures Now() == Wrote(old(Now()), WroteStop)
    {
      if !connected {
        return false;
      }
      events := events + [WroteStop];
      ok := written;
    }

    /** ReadMessages on a listening message. */
    method OnListening(sess: nat)
      requires Valid() && made > 0
      modifies this
      ensures Valid() && listeningCh in shut
      ensures Now() ==
        old(Now()).(shut := old(shut) + {listeningCh}, events := old(events) + [HeardListening(listeningCh, sess)])
    {
      listening := true;
      if listeningCh !in shut {
        shut := shut + {listeningCh};
      }
      events := events + [HeardListening(listeningCh, sess)];
    }

    method Close()
      requires Valid()
      modifies this
      ensures Valid() && !connected && Now() == HungUp(old(Now()))
    {
      if !connected {
        return;
      }
      connected, listening := false, false;
      events := events + [WroteClose];
    }
  }

  // ---------- The connection model takes the same steps ----------

  function ViewOf(s: Session): View {
    View(s.connected, s.cur, s.shut, s.events)
  }

  /** The worker's two steps through StartRecognition. */
  lemma SessionStarts(s: Session, written: bool)
    requires s.pc.Resetting? && s.connected
    ensures Enabled(s, Worker(Next)) && Enabled(Step(s, Worker(Next)), Worker(if written then Next else Failed))
    ensures ViewOf(Step(Step(s, Worker(Next)), Worker(if written then Next else Failed))) == Started(ViewOf(s))
  {
    var t := Step(s, Worker(Next));
    assert t.pc == Writing(s.pc.job);
  }

  lemma SessionWrites(s: Session, x: AudioAct)
    requires AudioGuard(s, x)
    ensures ViewOf(AudioStep(s, x)) ==
      if x.EndOfAudio? then ViewOf(s) else Wrote(ViewOf(s), if x.SendStop? then WroteStop else WroteChunk)
  {
  }

  lemma SessionHangsUp(s: Session)
    requires s.pc.HangingUp?
    ensures Enabled(s, Worker(Next)) && ViewOf(Step(s, Worker(Next))) == HungUp(ViewOf(s))
  {
  }

  /** The reader's three steps on a listening message, with no reset in between. */
  lemma SessionHears(s: Session)
    requires s.reader.Marking? && s.reader.msg.ListeningMsg? && !s.pc.Writing?
    ensures var s1 := ReaderStep(s, Mark); var s2 := ReaderStep(s1, Fetch);
      ViewOf(ReaderStep(s2, CloseCh)) ==
        ViewOf(s).(shut := s.shut + {s.cur}, events := s.events + [HeardListening(s.cur, s.reader.msg.sess)])
  {
  }
}
