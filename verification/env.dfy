/**
 * The world the dispatcher talks to, reduced to what it observes: an oracle
 * of SMTP outcomes, the counter file, and the events a run produces (network
 * calls, progress lines, checkpoint writes and pauses) in the order they happen.
 */
module Env {
  import opened Base

  /** How the relay answers one `sendmail` call. */
  datatype Reply =
    | Accepted            // the message was handed over
    | ServerDisconnected  // `smtplib.SMTPServerDisconnected`
    | Refused             // any other exception raised while building or sending

  /**
   * The network as an oracle: the k-th connection attempt of the process
   * (SMTP handshake, STARTTLS and login together) succeeds iff `connectOk(k)`;
   * the k-th `sendmail` call is answered with `reply(k)`.
   */
  datatype Net = Net(connectOk: nat -> bool, reply: nat -> Reply)

  /** Oracle cursors (attempts made so far) and the counter file's content. */
  datatype World = World(net: Net, opens: nat, mails: nat, counterFile: Option<string>)

  datatype Event =
    | Open(ok: bool)                  // one `EmailSender.connect` attempt
    | Quit                            // `server.quit()` on a live session
    | Mail(fromAddr: Option<string>, to: string, subject: string, body: string, reply: Reply)
    | Announce(index: int)            // the "[i/n] Enviando a" progress line
    | LimitReached                    // the session-limit line before a rotation
    | SaveCounter(value: int)         // a checkpoint write
    | Sleep(seconds: int)             // `time.sleep`

  /** The kinds of event that are counted. */
  datatype Kind = Connecting | Quitting | Rotating | Accepting

  predicate IsKind(e: Event, k: Kind)
  {
    match k
    case Connecting => e.Open?
    case Quitting => e.Quit?
    case Rotating => e.LimitReached?
    case Accepting => e.Mail? && e.reply == Accepted
  }

  /** Number of events of kind `k` in `es`. */
  function Tally(es: seq<Event>, k: Kind): nat
  {
    if |es| == 0 then 0 else (if IsKind(es[0], k) then 1 else 0) + Tally(es[1..], k)
  }

  /** Number of connection attempts among `es`. */
  function Opens(es: seq<Event>): nat
  {
    Tally(es, Connecting)
  }

  /** Number of `quit` calls among `es`. */
  function Quits(es: seq<Event>): nat
  {
    Tally(es, Quitting)
  }

  /** Number of session rotations among `es`. */
  function Rotations(es: seq<Event>): nat
  {
    Tally(es, Rotating)
  }

  /** Number of delivery attempts the relay accepted among `es`. */
  function Accepts(es: seq<Event>): nat
  {
    Tally(es, Accepting)
  }

  /** The recipient positions announced, in order. */
  function Announced(es: seq<Event>): seq<int>
  {
    if |es| == 0 then []
    else (if es[0].Announce? then [es[0].index] else []) + Announced(es[1..])
  }

  /** The checkpoint values written, in order. */
  function Saved(es: seq<Event>): seq<int>
  {
    if |es| == 0 then []
    else (if es[0].SaveCounter? then [es[0].value] else []) + Saved(es[1..])
  }

  /** The delivery attempts, in order. */
  function Deliveries(es: seq<Event>): seq<Event>
  {
    if |es| == 0 then []
    else (if es[0].Mail? then [es[0]] else []) + Deliveries(es[1..])
  }

  /** The delivery attempts the relay accepted, in order. */
  function Taken(es: seq<Event>): seq<Event>
  {
    if |es| == 0 then []
    else (if es[0].Mail? && es[0].reply == Accepted then [es[0]] else []) + Taken(es[1..])
  }

  /**
   * The delivery attempts `ds`, made with `mails` `sendmail` calls already
   * used up, got the relay's answers in order: the k-th carries `reply(mails + k)`.
   */
  ghost predicate Answered(ds: seq<Event>, net: Net, mails: nat)
  {
    forall k :: 0 <= k < |ds| ==> ds[k].Mail? && ds[k].reply == net.reply(mails + k)
  }

  /** Progress lines, checkpoint writes and counts of a one-event sequence. */
  lemma ProjectionsSingle(e: Event)
    ensures Announced([e]) == if e.Announce? then [e.index] else []
    ensures Saved([e]) == if e.SaveCounter? then [e.value] else []
    ensures Deliveries([e]) == if e.Mail? then [e] else []
    ensures Opens([e]) == if e.Open? then 1 else 0
    ensures Quits([e]) == if e.Quit? then 1 else 0
    ensures Rotations([e]) == if e.LimitReached? then 1 else 0
  {
    assert [e][1..] == [];
    TallySingle(e, Connecting);
    TallySingle(e, Quitting);
    TallySingle(e, Rotating);
  }

  /** Projections and counts of an event in front of others. */
  lemma ProjectionsCons(e: Event, es: seq<Event>)
    ensures Announced([e] + es) == (if e.Announce? then [e.index] else []) + Announced(es)
    ensures Saved([e] + es) == (if e.SaveCounter? then [e.value] else []) + Saved(es)
    ensures Deliveries([e] + es) == (if e.Mail? then [e] else []) + Deliveries(es)
    ensures Opens([e] + es) == (if e.Open? then 1 else 0) + Opens(es)
    ensures Quits([e] + es) == (if e.Quit? then 1 else 0) + Quits(es)
    ensures Rotations([e] + es) == (if e.LimitReached? then 1 else 0) + Rotations(es)
  {
    assert ([e] + es)[1..] == es;
  }

  /** Nothing is counted in an empty trace. */
  lemma TallyNil(k: Kind)
    ensures Tally([], k) == 0
  {
  }

  lemma TallySingle(e: Event, k: Kind)
    ensures Tally([e], k) == if IsKind(e, k) then 1 else 0
  {
    assert [e][1..] == [];
  }

  lemma {:induction false} TallyAppend(a: seq<Event>, b: seq<Event>, x: Kind)
    ensures Tally(a + b, x) == Tally(a, x) + Tally(b, x)
    decreases |a|
  {
    if |a| > 0 {
      TallyAppend(a[1..], b, x);
      assert (a + b)[1..] == a[1..] + b;
    } else {
      assert a + b == b;
    }
  }

  /** All three counts add up over a concatenation. */
  lemma CountsAppend(a: seq<Event>, b: seq<Event>)
    ensures Opens(a + b) == Opens(a) + Opens(b)
    ensures Quits(a + b) == Quits(a) + Quits(b)
    ensures Rotations(a + b) == Rotations(a) + Rotations(b)
  {
    TallyAppend(a, b, Connecting);
    TallyAppend(a, b, Quitting);
    TallyAppend(a, b, Rotating);
  }

  lemma {:induction false} AnnouncedAppend(a: seq<Event>, b: seq<Event>)
    ensures Announced(a + b) == Announced(a) + Announced(b)
    decreases |a|
  {
    if |a| > 0 {
      AnnouncedAppend(a[1..], b);
      assert (a + b)[1..] == a[1..] + b;
    } else {
      assert a + b == b;
    }
  }

  lemma {:induction false} SavedAppend(a: seq<Event>, b: seq<Event>)
    ensures Saved(a + b) == Saved(a) + Saved(b)
    decreases |a|
  {
    if |a| > 0 {
      SavedAppend(a[1..], b);
      assert (a + b)[1..] == a[1..] + b;
    } else {
      assert a + b == b;
    }
  }

  lemma {:induction false} DeliveriesAppend(a: seq<Event>, b: seq<Event>)
    ensures Deliveries(a + b) == Deliveries(a) + Deliveries(b)
    decreases |a|
  {
    if |a| > 0 {
      DeliveriesAppend(a[1..], b);
      assert (a + b)[1..] == a[1..] + b;
    } else {
      assert a + b == b;
    }
  }

  lemma {:induction false} TakenAppend(a: seq<Event>, b: seq<Event>)
    ensures Taken(a + b) == Taken(a) + Taken(b)
    decreases |a|
  {
    if |a| > 0 {
      TakenAppend(a[1..], b);
      assert (a + b)[1..] == a[1..] + b;
    } else {
      assert a + b == b;
    }
  }

  /** When every event is an accepted delivery, all of them were handed over. */
  lemma {:induction false} TakenAll(es: seq<Event>)
    requires forall k :: 0 <= k < |es| ==> es[k].Mail? && es[k].reply == Accepted
    ensures Taken(es) == es
    decreases |es|
  {
    if |es| > 0 {
      TakenAll(es[1..]);
      assert es == [es[0]] + es[1..];
    }
  }

  /** Answers in order before and after a split point make answers in order for the whole. */
  lemma AnsweredAppend(a: seq<Event>, b: seq<Event>, net: Net, mails: nat, mails': nat)
    requires Answered(a, net, mails) && Answered(b, net, mails') && mails' == mails + |a|
    ensures Answered(a + b, net, mails)
  {
    forall k | 0 <= k < |a + b|
      ensures (a + b)[k].Mail? && (a + b)[k].reply == net.reply(mails + k)
    {
      if k >= |a| {
        assert (a + b)[k] == b[k - |a|];
      }
    }
  }

  /** Events that hold no progress line and no checkpoint write. */
  predicate Quiet(es: seq<Event>)
  {
    Announced(es) == [] && Saved(es) == []
  }

  /** Quiet pieces make a quiet whole. */
  lemma QuietAppend(a: seq<Event>, b: seq<Event>)
    requires Quiet(a) && Quiet(b)
    ensures Quiet(a + b)
  {
    AnnouncedAppend(a, b);
    SavedAppend(a, b);
  }
}
