/**
 * The bulk-send loop of `run_sender`, from reading the checkpoint onwards:
 * walk the recipients from the stored position in ascending order over one
 * SMTP session, rotate the session every `SESSION_LIMIT` sends, write
 * `index + 1` to the checkpoint after each successful send, stop at the first
 * failure, and always close the session at the end. A negative delay makes
 * the pause after the first successful send raise, which also ends the loop.
 */
module Dispatch {
  import opened Base
  import opened Env
  import opened Transport
  import Counter
  import Sheet
  import Message

  /** Sends per SMTP session, kept a little under the provider's limit. */
  const SESSION_LIMIT: nat := 4900

  /** Seconds paused between closing a full session and opening the next. */
  const ROTATION_PAUSE: int := 5

  /** What one run works on: the sheet's rows, the subject, the body template, the pause between sends. */
  datatype Job = Job(recipients: seq<Sheet.Recipient>, subject: string, template: string, delay: int)

  /** The personalised body for row `i`. */
  function Body(job: Job, i: nat): string
    requires i < |job.recipients|
  {
    Message.Personalize(job.template, job.recipients[i].names)
  }

  /** `e` is a delivery attempt addressed to row `j`, carrying row `j`'s body. */
  predicate MailFor(job: Job, e: Event, j: int)
  {
    && e.Mail?
    && 0 <= j < |job.recipients|
    && e.to == job.recipients[j].email
    && e.body == Body(job, j)
  }

  /** Why the loop stopped. */
  datatype Exit =
    | Exhausted        // every remaining row was sent
    | SendFailed       // `send_email` returned false: break
    | ReconnectFailed  // the session rotation could not reconnect: break
    | SleepRaised      // `time.sleep` raised on a negative delay after the row was checkpointed

  /** The rows the loop tried: those it sent, and the one whose send failed. */
  function Tried(exit: Exit, next: nat): nat
  {
    if exit.SendFailed? then next + 1 else next
  }

  /**
   * The loop's final state: `next` is the first row not sent (the row that
   * failed, the row after the one whose pause raised, or the row count),
   * `session` is `emails_in_session` and `sent` the number of successful
   * sends in this loop.
   */
  datatype LoopEnd = LoopEnd(
    exit: Exit, next: nat, session: nat, sent: nat, sender: Sender, world: World, events: seq<Event>)

  datatype Rotation = Rotation(ok: bool, session: nat, sender: Sender, world: World, events: seq<Event>)

  /**
   * The top of each iteration: once the session is full, log it, disconnect,
   * pause, reconnect and start a new window; a failed reconnect keeps the
   * old window and tells the loop to stop.
   */
  function Rotate(session: nat, s: Sender, w: World): (r: Rotation)
    requires s.connected
    ensures session < SESSION_LIMIT ==> r == Rotation(true, session, s, w, [])
    ensures session >= SESSION_LIMIT ==>
              && r.events == [LimitReached, Quit, Sleep(ROTATION_PAUSE), Open(r.ok)]
              && r.session == (if r.ok then 0 else session)
              && (r.sender.connected <==> r.ok)
    ensures r.ok ==> r.sender == s
    ensures r.sender.fromAddr == s.fromAddr
    ensures r.world.net == w.net && r.world.counterFile == w.counterFile && r.world.mails == w.mails
    ensures r.world.opens == if session >= SESSION_LIMIT then w.opens + 1 else w.opens
  {
    if session < SESSION_LIMIT then Rotation(true, session, s, w, [])
    else
      var d := Disconnect(s);
      var c := Connect(d.sender, w);
      Rotation(c.ok, if c.ok then 0 else session, c.sender, c.world,
               [LimitReached] + d.events + [Sleep(ROTATION_PAUSE)] + c.events)
  }

  /**
   * A rotation happens exactly when the window is full: one `quit` and one
   * `connect`, and no progress line or checkpoint write.
   */
  lemma RotationEvents(session: nat, s: Sender, w: World)
    requires s.connected
    ensures var r := Rotate(session, s, w);
      && Quiet(r.events)
      && Rotations(r.events) == (if session >= SESSION_LIMIT then 1 else 0)
      && Opens(r.events) == Rotations(r.events)
      && Quits(r.events) == Rotations(r.events)
      && (forall e :: e in r.events ==> !e.Mail?)
      && Deliveries(r.events) == []
  {
    var r := Rotate(session, s, w);
    if session >= SESSION_LIMIT {
      RotationTrace(r.ok);
    }
  }

  /** The events of a full-window rotation: one limit line, one `quit`, one pause and one `connect`. */
  lemma RotationTrace(ok: bool)
    ensures var es := [LimitReached, Quit, Sleep(ROTATION_PAUSE), Open(ok)];
      && Quiet(es) && Rotations(es) == 1 && Opens(es) == 1 && Quits(es) == 1
      && (forall e :: e in es ==> !e.Mail?) && Deliveries(es) == []
  {
    var o := Open(ok);
    var tail2, tail3 := [Sleep(ROTATION_PAUSE), o], [Quit, Sleep(ROTATION_PAUSE), o];
    assert tail2 == [Sleep(ROTATION_PAUSE)] + [o];
    assert tail3 == [Quit] + tail2;
    assert [LimitReached, Quit, Sleep(ROTATION_PAUSE), o] == [LimitReached] + tail3;
    ProjectionsSingle(o);
    ProjectionsCons(Sleep(ROTATION_PAUSE), [o]);
    ProjectionsCons(Quit, tail2);
    ProjectionsCons(LimitReached, tail3);
  }

  /** Where and why the loop stops. */
  datatype Halt = Halt(exit: Exit, next: nat)

  /**
   * Reference for where the loop from row `i` stops, read off the relay's
   * answers alone, with `opens` connection attempts and `mails` delivery
   * attempts used up so far: a full window needs a reconnect and stops the
   * loop if it fails; row `i` is delivered when the relay accepts it, or
   * drops the session and then takes it again after a reconnect; otherwise
   * the loop stops there. A delivered row is done, and a negative delay
   * raises in the pause after it while any other delay moves on to row `i + 1`.
   */
  function Walk(job: Job, i: nat, session: nat, net: Net, opens: nat, mails: nat): (h: Halt)
    requires i <= |job.recipients| && session <= SESSION_LIMIT
    ensures i <= h.next <= |job.recipients|
    ensures h.exit.Exhausted? ==> h.next == |job.recipients|
    ensures h.exit.SendFailed? || h.exit.ReconnectFailed? ==> h.next < |job.recipients|
    ensures h.exit.SleepRaised? ==> job.delay < 0 && h.next == i + 1
    ensures job.delay < 0 ==> h.next <= i + 1
    decreases |job.recipients| - i
  {
    if i == |job.recipients| then Halt(Exhausted, i)
    else if session == SESSION_LIMIT && !net.connectOk(opens) then Halt(ReconnectFailed, i)
    else
      var o := if session == SESSION_LIMIT then opens + 1 else opens;
      var k := if session == SESSION_LIMIT then 0 else session;
      var taken, dropped := net.reply(mails) == Accepted, net.reply(mails) == ServerDisconnected;
      if !taken && !(dropped && net.connectOk(o) && net.reply(mails + 1) == Accepted) then Halt(SendFailed, i)
      else if job.delay < 0 then Halt(SleepRaised, i + 1)
      else Walk(job, i + 1, k + 1, net, if taken then o else o + 1, if taken then mails + 1 else mails + 2)
  }

  /**
   * On a relay that always connects and accepts, the loop sends every row
   * from `i` on, unless a negative delay raises after the first of them.
   */
  lemma {:induction false} HealthyWalk(job: Job, i: nat, session: nat, net: Net, opens: nat, mails: nat)
    requires i <= |job.recipients| && session <= SESSION_LIMIT && Healthy(net)
    ensures Walk(job, i, session, net, opens, mails) ==
              if job.delay < 0 && i < |job.recipients| then Halt(SleepRaised, i + 1)
              else Halt(Exhausted, |job.recipients|)
    decreases |job.recipients| - i
  {
    if i < |job.recipients| {
      HealthyAt(net, opens, mails);
      if session == SESSION_LIMIT {
        HealthyWalk(job, i + 1, 1, net, opens + 1, mails + 1);
      } else {
        HealthyWalk(job, i + 1, session + 1, net, opens, mails + 1);
      }
    }
  }

  /** On a healthy relay a loop over at least one row ends only by running out of rows or by a raising pause. */
  lemma HealthyEnd(job: Job, first: nat, w: World, exit: Exit, next: nat)
    requires first < |job.recipients| && Healthy(w.net)
    requires Halt(exit, next) == Walk(job, first, 0, w.net, w.opens, w.mails)
    ensures exit == (if job.delay < 0 then SleepRaised else Exhausted)
  {
    HealthyWalk(job, first, 0, w.net, w.opens, w.mails);
  }

  /** A refused first delivery stops the loop at its first row, before any checkpoint. */
  lemma RefusalStops(job: Job, first: nat, w: World)
    requires first < |job.recipients|
    requires w.net.reply(w.mails) == Refused
    ensures Walk(job, first, 0, w.net, w.opens, w.mails) == Halt(SendFailed, first)
  {
  }

  /** An accepted first delivery gets the loop past its first row. */
  lemma AcceptanceAdvances(job: Job, first: nat, w: World)
    requires first < |job.recipients|
    requires w.net.reply(w.mails) == Accepted
    ensures Walk(job, first, 0, w.net, w.opens, w.mails).next > first
  {
  }

  /**
   * Reference for the deliveries the loop from row `i` makes, read off the
   * relay's answers alone, step for step with `Walk`: every row the walk
   * reaches after a working rotation gets the attempts `send_email` makes
   * for it, and the trail ends where the walk stops.
   */
  function Trail(job: Job, fromAddr: Option<string>, i: nat, session: nat, net: Net, opens: nat, mails: nat): seq<Event>
    requires i <= |job.recipients| && session <= SESSION_LIMIT
    decreases |job.recipients| - i
  {
    if i == |job.recipients| || (session == SESSION_LIMIT && !net.connectOk(opens)) then []
    else
      var o := if session == SESSION_LIMIT then opens + 1 else opens;
      var k := if session == SESSION_LIMIT then 0 else session;
      var taken, dropped := net.reply(mails) == Accepted, net.reply(mails) == ServerDisconnected;
      var a := Attempts(fromAddr, job.recipients[i].email, job.subject, Body(job, i), net, o, mails);
      if !taken && !(dropped && net.connectOk(o) && net.reply(mails + 1) == Accepted) then a
      else if job.delay < 0 then a
      else a + Trail(job, fromAddr, i + 1, k + 1, net, if taken then o else o + 1, if taken then mails + 1 else mails + 2)
  }

  /** Each row of `lo .. hi - 1`, in order, handed over once: the delivery the relay accepted for it. */
  function Sends(job: Job, fromAddr: Option<string>, lo: nat, hi: nat): seq<Event>
    requires lo <= hi <= |job.recipients|
    decreases hi - lo
  {
    if lo == hi then []
    else [Mail(fromAddr, job.recipients[lo].email, job.subject, Body(job, lo), Accepted)] + Sends(job, fromAddr, lo + 1, hi)
  }

  /** The rotation and the send of one iteration, around its progress line. */
  lemma HeadProjections(pre: seq<Event>, i: int, mid: seq<Event>, head: seq<Event>)
    requires Quiet(pre) && Quiet(mid)
    requires head == pre + [Announce(i)] + mid
    ensures Announced(head) == [i] && Saved(head) == []
    ensures Opens(head) == Opens(pre) + Opens(mid)
    ensures Quits(head) == Quits(pre) + Quits(mid)
    ensures Rotations(head) == Rotations(pre) + Rotations(mid)
  {
    ProjectionsSingle(Announce(i));
    AnnouncedAppend(pre, [Announce(i)]);
    AnnouncedAppend(pre + [Announce(i)], mid);
    SavedAppend(pre, [Announce(i)]);
    SavedAppend(pre + [Announce(i)], mid);
    CountsAppend(pre, [Announce(i)]);
    CountsAppend(pre + [Announce(i)], mid);
  }

  /** The progress line between the rotation and the send delivers nothing. */
  lemma HeadDeliveries(pre: seq<Event>, i: int, mid: seq<Event>)
    ensures Deliveries(pre + [Announce(i)] + mid) == Deliveries(pre) + Deliveries(mid)
  {
    ProjectionsSingle(Announce(i));
    DeliveriesAppend(pre, [Announce(i)]);
    DeliveriesAppend(pre + [Announce(i)], mid);
  }

  /** The checkpoint write and the pause that close a successful iteration. */
  lemma PostProjections(head: seq<Event>, i: int, delay: int)
    ensures var all := head + [SaveCounter(i + 1), Sleep(delay)];
      && Announced(all) == Announced(head) && Saved(all) == Saved(head) + [i + 1]
      && Opens(all) == Opens(head) && Quits(all) == Quits(head) && Rotations(all) == Rotations(head)
  {
    var post := [SaveCounter(i + 1), Sleep(delay)];
    ProjectionsSingle(SaveCounter(i + 1));
    ProjectionsSingle(Sleep(delay));
    assert post == [SaveCounter(i + 1)] + [Sleep(delay)];
    AnnouncedAppend([SaveCounter(i + 1)], [Sleep(delay)]);
    SavedAppend([SaveCounter(i + 1)], [Sleep(delay)]);
    CountsAppend([SaveCounter(i + 1)], [Sleep(delay)]);
    AnnouncedAppend(head, post);
    SavedAppend(head, post);
    CountsAppend(head, post);
  }

  /** The checkpoint write and the pause deliver nothing. */
  lemma PostDeliveries(head: seq<Event>, i: int, delay: int)
    ensures Deliveries(head + [SaveCounter(i + 1), Sleep(delay)]) == Deliveries(head)
  {
    ProjectionsSingle(SaveCounter(i + 1));
    ProjectionsSingle(Sleep(delay));
    assert [SaveCounter(i + 1), Sleep(delay)] == [SaveCounter(i + 1)] + [Sleep(delay)];
    DeliveriesAppend([SaveCounter(i + 1)], [Sleep(delay)]);
    DeliveriesAppend(head, [SaveCounter(i + 1), Sleep(delay)]);
  }

  /** How one pass of the loop body ended. */
  datatype Pass =
    | Sent           // the row was delivered: go on with the next one
    | Unsent         // `send_email` returned false: break
    | Unreconnected  // the rotation could not reconnect: break

  /** The state after one pass of the loop body. */
  datatype Visited = Visited(pass: Pass, session: nat, sender: Sender, world: World, events: seq<Event>)

  /**
   * One pass of the loop body at row `i`: rotate when the window is full,
   * print the progress line, send the row's personalised message, and after
   * a successful send write `i + 1` to the checkpoint and pause. A failed
   * reconnect breaks before the progress line; a failed send breaks before
   * the checkpoint write and the pause. The pass is `Sent` exactly when the
   * rotation kept a session and `send_email` returned true on it.
   */
  method Visit(i: nat, to: string, subject: string, body: string, delay: int, session: nat, s: Sender, w: World) returns (v: Visited)
    requires session <= SESSION_LIMIT && s.connected
    ensures v.pass.Unreconnected? <==> session == SESSION_LIMIT && !w.net.connectOk(w.opens)
    ensures v.pass.Unsent? ==> w.net.reply(w.mails) != Accepted
    ensures v.pass.Unreconnected? <==> !Rotate(session, s, w).ok
    ensures var rot := Rotate(session, s, w);
      rot.ok ==>
        var snd := SendEmail(rot.sender, rot.world, to, subject, body);
        && (v.pass.Sent? <==> snd.ok)
        && (v.pass.Sent? ==> v.session == rot.session + 1 && v.sender == snd.sender)
        && v.world == snd.world && Deliveries(v.events) == Deliveries(snd.events)
    ensures v.pass.Unreconnected? ==> forall e :: e in v.events ==> !e.Mail?
    ensures v.pass.Unreconnected? ==> Deliveries(v.events) == [] && v.world.mails == w.mails
    ensures v.pass.Unreconnected? ==> v.session == SESSION_LIMIT
    ensures v.pass.Sent? ==> v.sender.connected && 1 <= v.session <= SESSION_LIMIT
    ensures v.sender.fromAddr == s.fromAddr && v.world.net == w.net
    ensures v.world.counterFile == w.counterFile
    ensures Announced(v.events) == (if v.pass.Unreconnected? then [] else [i])
    ensures Saved(v.events) == (if v.pass.Sent? then [i + 1] else [])
    ensures SESSION_LIMIT * Rotations(v.events) + v.session
              == session + (if v.pass.Sent? then 1 else 0) + (if v.pass.Unreconnected? then SESSION_LIMIT else 0)
    ensures Quits(v.events) == Rotations(v.events)
    ensures Opens(v.events) == Rotations(v.events) +
              (if !v.pass.Unreconnected? && w.net.reply(w.mails) == ServerDisconnected then 1 else 0)
    ensures AllMailAs(v.events, s.fromAddr, to, subject, body)
  {
    var rot := Rotate(session, s, w);
    RotationEvents(session, s, w);
    if !rot.ok {
      MaillessAllMailAs(rot.events, s.fromAddr, to, subject, body);
      v := Visited(Unreconnected, session, rot.sender, rot.world, rot.events);
      return;
    }
    var snd := SendEmail(rot.sender, rot.world, to, subject, body);
    SendEmailReconnects(rot.sender, rot.world, to, subject, body);
    SendEmailEvents(rot.sender, rot.world, to, subject, body);
    var head := rot.events + [Announce(i)] + snd.events;
    HeadProjections(rot.events, i, snd.events, head);
    HeadDeliveries(rot.events, i, snd.events);
    MaillessAllMailAs(rot.events + [Announce(i)], s.fromAddr, to, subject, body);
    AllMailAsAppend(rot.events + [Announce(i)], snd.events, s.fromAddr, to, subject, body);
    if !snd.ok {
      v := Visited(Unsent, rot.session, snd.sender, snd.world, head);
      return;
    }
    PostProjections(head, i, delay);
    PostDeliveries(head, i, delay);
    MaillessAllMailAs([SaveCounter(i + 1), Sleep(delay)], s.fromAddr, to, subject, body);
    AllMailAsAppend(head, [SaveCounter(i + 1), Sleep(delay)], s.fromAddr, to, subject, body);
    v := Visited(Sent, rot.session + 1, snd.sender, snd.world,
                 head + [SaveCounter(i + 1), Sleep(delay)]);
  }

  /**
   * Every delivery attempt in `es` goes from `fromAddr` with the job's
   * subject to some row `j` in `lo .. hi - 1`, carrying that row's body.
   */
  ghost predicate MailsTo(job: Job, fromAddr: Option<string>, es: seq<Event>, lo: int, hi: int)
  {
    forall e :: e in es && e.Mail? ==>
      && e.fromAddr == fromAddr
      && e.subject == job.subject
      && exists j :: lo <= j < hi && MailFor(job, e, j)
  }

  /** The mails of row `i` extend the rows mailed so far by one. */
  lemma MailsToStep(job: Job, fromAddr: Option<string>, es: seq<Event>, ev: seq<Event>, lo: int, i: nat)
    requires lo <= i < |job.recipients|
    requires MailsTo(job, fromAddr, es, lo, i)
    requires AllMailAs(ev, fromAddr, job.recipients[i].email, job.subject, Body(job, i))
    ensures MailsTo(job, fromAddr, es + ev, lo, i + 1)
  {
    forall e | e in es + ev && e.Mail?
      ensures e.fromAddr == fromAddr && e.subject == job.subject && exists j :: lo <= j < i + 1 && MailFor(job, e, j)
    {
      if e in ev {
        assert MailFor(job, e, i);
      }
    }
  }

  /** Every connection attempt succeeds and every delivery is accepted on the first try. */
  ghost predicate Healthy(net: Net)
  {
    forall k :: net.connectOk(k) && net.reply(k) == Accepted
  }

  /** A healthy network accepts the connection and the delivery at the given cursors. */
  lemma HealthyAt(net: Net, opens: nat, mails: nat)
    ensures Healthy(net) ==> net.connectOk(opens) && net.reply(mails) == Accepted
  {
  }

  /** On a healthy network every delivery attempt answered in order was accepted, so all of them were handed over. */
  lemma HealthyAnswers(ds: seq<Event>, net: Net, mails: nat)
    requires Healthy(net) && Answered(ds, net, mails)
    ensures Taken(ds) == ds
  {
    forall k | 0 <= k < |ds|
      ensures ds[k].Mail? && ds[k].reply == Accepted
    {
      HealthyAt(net, 0, mails + k);
    }
    TakenAll(ds);
  }

  /**
   * Loop invariant, progress part: the rows announced so far are exactly
   * `first .. i - 1`, and the checkpoint was written once per sent row.
   */
  ghost predicate InvP(first: int, i: int, events: seq<Event>)
  {
    Announced(events) == Range(first, i) && Saved(events) == Range(first + 1, i + 1)
  }

  /**
   * Loop invariant, counting part: every `SESSION_LIMIT` sends made one
   * rotation, each rotation one `quit`, and on a healthy network every
   * connection was made by a rotation.
   */
  ghost predicate InvC(net: Net, first: int, i: int, session: int, events: seq<Event>)
  {
    && SESSION_LIMIT * Rotations(events) + session == i - first
    && Quits(events) == Rotations(events)
    && (Healthy(net) ==> Opens(events) == Rotations(events))
  }

  lemma StepP(first: int, i: int, events: seq<Event>, ev: seq<Event>)
    requires first <= i && InvP(first, i, events)
    requires Announced(ev) == [i] && Saved(ev) == [i + 1]
    ensures InvP(first, i + 1, events + ev)
  {
    AnnouncedAppend(events, ev);
    SavedAppend(events, ev);
    RangeSnoc(first, i);
    RangeSnoc(first + 1, i + 1);
  }

  lemma StepC(net: Net, first: int, i: int, session: int, events: seq<Event>, ev: seq<Event>, session': int)
    requires InvC(net, first, i, session, events)
    requires SESSION_LIMIT * Rotations(ev) + session' == session + 1
    requires Quits(ev) == Rotations(ev)
    requires Healthy(net) ==> Opens(ev) == Rotations(ev)
    ensures InvC(net, first, i + 1, session', events + ev)
  {
    CountsAppend(events, ev);
  }

  /**
   * Loop invariant, delivery part: the deliveries so far followed by `rest`,
   * the trail from row `i`, make up `trail`; each used up one reply, and each
   * of the rows `first .. i - 1` had one accepted delivery, after at most one
   * other attempt.
   */
  ghost predicate InvD(w: World, trail: seq<Event>, first: int, i: int, mails: nat, events: seq<Event>, rest: seq<Event>)
  {
    && trail == Deliveries(events) + rest
    && mails == w.mails + |Deliveries(events)|
    && Accepts(Deliveries(events)) == i - first
    && i - first <= |Deliveries(events)| <= 2 * (i - first)
  }

  lemma StepD(w: World, trail: seq<Event>, first: int, i: int, mails: nat, events: seq<Event>, rest: seq<Event>,
              ev: seq<Event>, mails': nat, rest': seq<Event>)
    requires InvD(w, trail, first, i, mails, events, rest)
    requires rest == Deliveries(ev) + rest' && mails' == mails + |Deliveries(ev)|
    requires Accepts(Deliveries(ev)) == 1 && 1 <= |Deliveries(ev)| <= 2
    ensures InvD(w, trail, first, i + 1, mails', events + ev, rest')
  {
    var d, dv := Deliveries(events), Deliveries(ev);
    DeliveriesAppend(events, ev);
    TallyAppend(d, dv, Accepting);
    assert d + (dv + rest') == (d + dv) + rest';
  }

  lemma StopD(w: World, trail: seq<Event>, first: nat, events: seq<Event>, ev: seq<Event>, l: LoopEnd)
    requires trail == Deliveries(events) + Deliveries(ev)
    requires Accepts(Deliveries(events)) + Accepts(Deliveries(ev)) == l.sent
    requires l.events == events + ev && l.world.mails == w.mails + |Deliveries(events)| + |Deliveries(ev)|
    requires Tried(l.exit, l.next) - first <= |Deliveries(events)| + |Deliveries(ev)| <= 2 * (Tried(l.exit, l.next) - first)
    ensures EndedMails(first, w, l, trail)
  {
    DeliveriesAppend(events, ev);
    TallyAppend(Deliveries(events), Deliveries(ev), Accepting);
  }

  lemma MailsToWiden(job: Job, fromAddr: Option<string>, es: seq<Event>, lo: int, hi: int, hi': int)
    requires hi <= hi' && MailsTo(job, fromAddr, es, lo, hi)
    ensures MailsTo(job, fromAddr, es, lo, hi')
  {
    forall e | e in es && e.Mail?
      ensures exists j :: lo <= j < hi' && MailFor(job, e, j)
    {
      var j :| lo <= j < hi && MailFor(job, e, j);
    }
  }

  lemma StopP(first: int, i: int, events: seq<Event>, ev: seq<Event>, announced: bool)
    requires first <= i && InvP(first, i, events)
    requires Announced(ev) == (if announced then [i] else []) && Saved(ev) == []
    ensures Announced(events + ev) == Range(first, if announced then i + 1 else i)
    ensures Saved(events + ev) == Range(first + 1, i + 1)
  {
    AnnouncedAppend(events, ev);
    SavedAppend(events, ev);
    AppendNil(Range(first + 1, i + 1));
    if announced {
      RangeSnoc(first, i);
    } else {
      AppendNil(Range(first, i));
    }
  }

  lemma StopC(net: Net, first: int, i: int, session: int, events: seq<Event>, ev: seq<Event>, session': int, lost: bool)
    requires InvC(net, first, i, session, events)
    requires SESSION_LIMIT * Rotations(ev) + session' == session + (if lost then SESSION_LIMIT else 0)
    requires Quits(ev) == Rotations(ev)
    ensures SESSION_LIMIT * Rotations(events + ev) + session' == i - first + (if lost then SESSION_LIMIT else 0)
    ensures Quits(events + ev) == Rotations(events + ev)
  {
    CountsAppend(events, ev);
  }

  /**
   * What the loop promises when it ends, about its rows: the rows `first ..
   * next - 1` were sent (`sent` of them); a failure stops it at a row of the
   * sheet; a raising pause follows the one row a negative delay lets through;
   * the session is still open when no failure stopped it.
   */
  ghost predicate EndedRows(job: Job, first: nat, s: Sender, w: World, l: LoopEnd)
  {
    && first <= l.next <= |job.recipients| && l.sent == l.next - first
    && (l.exit.Exhausted? ==> l.next == |job.recipients|)
    && (l.exit.SendFailed? || l.exit.ReconnectFailed? ==> l.next < |job.recipients|)
    && (l.exit.SleepRaised? ==> job.delay < 0 && l.sent == 1)
    && (job.delay < 0 ==> l.sent <= 1)
    && (l.exit.Exhausted? || l.exit.SleepRaised? ==> l.sender.connected && (l.sent > 0 ==> l.session >= 1))
    && l.sender.fromAddr == s.fromAddr && l.world.net == w.net && l.world.counterFile == w.counterFile
  }

  /**
   * About its trace: the sent rows were announced and checkpointed in order,
   * a failed send also announced the row it failed on, and every delivery
   * went to a row the loop tried: a failed reconnect mailed nothing for its row.
   */
  ghost predicate EndedTrace(job: Job, first: nat, s: Sender, l: LoopEnd)
  {
    && Announced(l.events) == Range(first, Tried(l.exit, l.next))
    && Saved(l.events) == Range(first + 1, l.next + 1)
    && MailsTo(job, s.fromAddr, l.events, first, Tried(l.exit, l.next))
  }

  /**
   * About its sessions: every `SESSION_LIMIT` sends made one rotation and
   * each rotation one `quit`; a failed reconnect only happens once a window
   * is full; a healthy network fails nothing, and there only rotations connect.
   */
  ghost predicate EndedSessions(w: World, l: LoopEnd)
  {
    && l.session <= SESSION_LIMIT
    && (l.exit.ReconnectFailed? ==> l.sent >= SESSION_LIMIT)
    && SESSION_LIMIT * Rotations(l.events) + l.session == l.sent + (if l.exit.ReconnectFailed? then SESSION_LIMIT else 0)
    && Quits(l.events) == Rotations(l.events)
    && (Healthy(w.net) ==> (l.exit.Exhausted? || l.exit.SleepRaised?) && Opens(l.events) == Rotations(l.events))
  }

  /**
   * About its deliveries: they are `trail`, each used up one of the relay's
   * replies, one was accepted per sent row, and every tried row took one
   * attempt or two.
   */
  ghost predicate EndedMails(first: nat, w: World, l: LoopEnd, trail: seq<Event>)
  {
    && Deliveries(l.events) == trail
    && l.world.mails == w.mails + |trail|
    && Accepts(trail) == l.sent
    && Tried(l.exit, l.next) - first <= |trail| <= 2 * (Tried(l.exit, l.next) - first)
  }

  /**
   * Everything the loop promises when it ends, with `target` where and why it
   * stops and `trail` what it delivered.
   */
  ghost predicate EndedAt(job: Job, first: nat, s: Sender, w: World, l: LoopEnd, target: Halt, trail: seq<Event>)
  {
    && EndedRows(job, first, s, w, l) && EndedTrace(job, first, s, l) && EndedSessions(w, l)
    && Halt(l.exit, l.next) == target && EndedMails(first, w, l, trail)
  }

  /**
   * Everything the loop promises when it ends: it stops where and why the
   * reference walk over the relay's answers stops, and delivers what the
   * reference trail holds.
   */
  ghost predicate Ended(job: Job, first: nat, s: Sender, w: World, l: LoopEnd)
  {
    && first <= |job.recipients|
    && EndedAt(job, first, s, w, l, Walk(job, first, 0, w.net, w.opens, w.mails),
               Trail(job, s.fromAddr, first, 0, w.net, w.opens, w.mails))
  }

  /** The loop's position and connection before visiting row `i`. */
  ghost predicate LoopRows(job: Job, first: nat, s: Sender, w: World, i: nat, session: nat, sender: Sender, world: World)
  {
    && first <= i <= |job.recipients| && s.connected
    && (job.delay < 0 ==> i == first)
    && session <= SESSION_LIMIT && sender.connected
    && (i > first ==> session >= 1)
    && sender.fromAddr == s.fromAddr && world.net == w.net && world.counterFile == w.counterFile
  }

  /**
   * The loop's state before visiting row `i`: rows `first .. i - 1` were sent
   * on the open session, and the rest of the walk stops at `target`, where
   * the whole loop's walk does; the deliveries so far and the rest of the
   * trail make up `trail`.
   */
  ghost predicate Looping(job: Job, first: nat, s: Sender, w: World, target: Halt, trail: seq<Event>,
                          i: nat, session: nat, sender: Sender, world: World, events: seq<Event>)
  {
    && LoopRows(job, first, s, w, i, session, sender, world)
    && target == Walk(job, i, session, w.net, world.opens, world.mails)
    && InvP(first, i, events)
    && InvC(w.net, first, i, session, events)
    && MailsTo(job, s.fromAddr, events, first, i)
    && InvD(w, trail, first, i, world.mails, events, Trail(job, s.fromAddr, i, session, w.net, world.opens, world.mails))
  }

  /** What `Visit` promises about how a pass ends and the state it leaves. */
  ghost predicate VisitMoves(session: nat, sender: Sender, world: World, v: Visited)
  {
    && (v.pass.Unreconnected? <==> session == SESSION_LIMIT && !world.net.connectOk(world.opens))
    && (v.pass.Unsent? ==> world.net.reply(world.mails) != Accepted)
    && (v.pass.Unreconnected? ==> v.session == SESSION_LIMIT)
    && (v.pass.Sent? ==> v.sender.connected && 1 <= v.session <= SESSION_LIMIT)
    && v.sender.fromAddr == sender.fromAddr && v.world.net == world.net
    && v.world.counterFile == world.counterFile
  }

  /** What `Visit` promises about the progress lines, checkpoints and deliveries of row `i`. */
  ghost predicate VisitTrace(job: Job, i: nat, sender: Sender, v: Visited)
    requires i < |job.recipients|
  {
    && Announced(v.events) == (if v.pass.Unreconnected? then [] else [i])
    && Saved(v.events) == (if v.pass.Sent? then [i + 1] else [])
    && AllMailAs(v.events, sender.fromAddr, job.recipients[i].email, job.subject, Body(job, i))
    && (v.pass.Unreconnected? ==> forall e :: e in v.events ==> !e.Mail?)
  }

  /** What `Visit` promises about rotations, quits and connects. */
  ghost predicate VisitCounts(session: nat, world: World, v: Visited)
  {
    && SESSION_LIMIT * Rotations(v.events) + v.session
         == session + (if v.pass.Sent? then 1 else 0) + (if v.pass.Unreconnected? then SESSION_LIMIT else 0)
    && Quits(v.events) == Rotations(v.events)
    && Opens(v.events) == Rotations(v.events) +
         (if !v.pass.Unreconnected? && world.net.reply(world.mails) == ServerDisconnected then 1 else 0)
  }

  /**
   * What `Visit` promises about the relay's part: the rotation's reconnect and
   * the send's result decide the pass, and a sent row leaves the send's state.
   */
  ghost predicate VisitOracle(job: Job, i: nat, session: nat, sender: Sender, world: World, v: Visited)
    requires i < |job.recipients| && sender.connected
  {
    var rot := Rotate(session, sender, world);
    && (v.pass.Unreconnected? <==> !rot.ok)
    && (rot.ok ==>
          var snd := SendEmail(rot.sender, rot.world, job.recipients[i].email, job.subject, Body(job, i));
          && (v.pass.Sent? <==> snd.ok)
          && (v.pass.Sent? ==> v.session == rot.session + 1 && v.sender == snd.sender)
          && v.world == snd.world && Deliveries(v.events) == Deliveries(snd.events))
    && (!rot.ok ==> Deliveries(v.events) == [] && v.world.mails == world.mails)
  }

  /** Everything `Visit` promises about one pass at row `i`. */
  ghost predicate VisitedRow(job: Job, i: nat, session: nat, sender: Sender, world: World, v: Visited)
    requires i < |job.recipients| && sender.connected
  {
    && VisitMoves(session, sender, world, v) && VisitTrace(job, i, sender, v) && VisitCounts(session, world, v)
    && VisitOracle(job, i, session, sender, world, v) && Paced(job, i, session, sender.fromAddr, world, v)
  }

  /** The pass at row `i` of the job: `Visit` with the row's address and personalised body. */
  method VisitRow(job: Job, i: nat, session: nat, sender: Sender, world: World) returns (v: Visited)
    requires i < |job.recipients| && session <= SESSION_LIMIT && sender.connected
    ensures VisitedRow(job, i, session, sender, world, v)
  {
    v := Visit(i, job.recipients[i].email, job.subject, Body(job, i), job.delay, session, sender, world);
    VisitPaced(job, i, session, sender, world, v);
  }

  /** A successful pass with a non-negative delay leaves the rest of the walk where it was. */
  lemma WalkOn(job: Job, i: nat, session: nat, sender: Sender, world: World, v: Visited)
    requires i < |job.recipients| && session <= SESSION_LIMIT && sender.connected
    requires VisitOracle(job, i, session, sender, world, v) && v.pass.Sent? && job.delay >= 0
    ensures v.session <= SESSION_LIMIT && v.sender.connected && v.world.net == world.net
    ensures Walk(job, i, session, world.net, world.opens, world.mails) ==
            Walk(job, i + 1, v.session, world.net, v.world.opens, v.world.mails)
  {
  }

  /** A failed pass, or a sent one whose pause raises, is where the walk stops. */
  lemma WalkStop(job: Job, i: nat, session: nat, sender: Sender, world: World, v: Visited)
    requires i < |job.recipients| && session <= SESSION_LIMIT && sender.connected
    requires VisitOracle(job, i, session, sender, world, v)
    ensures !v.pass.Sent? ==>
              Walk(job, i, session, world.net, world.opens, world.mails) ==
              Halt(if v.pass.Unsent? then SendFailed else ReconnectFailed, i)
    ensures v.pass.Sent? && job.delay < 0 ==> Walk(job, i, session, world.net, world.opens, world.mails) == Halt(SleepRaised, i + 1)
  {
  }

  /** The trail from a row that is delivered with a non-negative delay: that row's attempts, then the trail from the next row. */
  lemma TrailStep(job: Job, fromAddr: Option<string>, i: nat, session: nat, net: Net, opens: nat, mails: nat,
                  d: seq<Event>, next: nat, opens': nat, mails': nat)
    requires i < |job.recipients| && session <= SESSION_LIMIT && job.delay >= 0
    requires session < SESSION_LIMIT || net.connectOk(opens)
    requires var o := if session == SESSION_LIMIT then opens + 1 else opens;
      var taken := net.reply(mails) == Accepted;
      && Delivers(net, o, mails)
      && d == Attempts(fromAddr, job.recipients[i].email, job.subject, Body(job, i), net, o, mails)
      && next == (if session == SESSION_LIMIT then 0 else session) + 1
      && opens' == (if taken then o else o + 1)
      && mails' == (if taken then mails + 1 else mails + 2)
    ensures next <= SESSION_LIMIT
    ensures Trail(job, fromAddr, i, session, net, opens, mails) == d + Trail(job, fromAddr, i + 1, next, net, opens', mails')
  {
  }

  /** The walk from a row that is delivered with a non-negative delay goes on from the next row. */
  lemma WalkStep(job: Job, i: nat, session: nat, net: Net, opens: nat, mails: nat, next: nat, opens': nat, mails': nat)
    requires i < |job.recipients| && session <= SESSION_LIMIT && job.delay >= 0
    requires session < SESSION_LIMIT || net.connectOk(opens)
    requires var o := if session == SESSION_LIMIT then opens + 1 else opens;
      var taken := net.reply(mails) == Accepted;
      && Delivers(net, o, mails)
      && next == (if session == SESSION_LIMIT then 0 else session) + 1
      && opens' == (if taken then o else o + 1)
      && mails' == (if taken then mails + 1 else mails + 2)
    ensures next <= SESSION_LIMIT
    ensures Walk(job, i, session, net, opens, mails) == Walk(job, i + 1, next, net, opens', mails')
  {
  }

  /** The trail from a row that ends the walk is that row's attempts, if the rotation let it try. */
  lemma TrailEnd(job: Job, fromAddr: Option<string>, i: nat, session: nat, net: Net, opens: nat, mails: nat)
    requires i < |job.recipients| && session <= SESSION_LIMIT
    requires session < SESSION_LIMIT || net.connectOk(opens)
    requires var o := if session == SESSION_LIMIT then opens + 1 else opens;
      !Delivers(net, o, mails) || job.delay < 0
    ensures var o := if session == SESSION_LIMIT then opens + 1 else opens;
      && Trail(job, fromAddr, i, session, net, opens, mails) ==
         Attempts(fromAddr, job.recipients[i].email, job.subject, Body(job, i), net, o, mails)
      && Walk(job, i, session, net, opens, mails).next == if Delivers(net, o, mails) then i + 1 else i
  {
  }

  /** The trail from a row that ends the walk hands over that row alone, if its attempts delivered it. */
  lemma TrailSendsEnd(job: Job, fromAddr: Option<string>, i: nat, session: nat, net: Net, opens: nat, mails: nat)
    requires i <= |job.recipients| && session <= SESSION_LIMIT
    requires var o := if session == SESSION_LIMIT then opens + 1 else opens;
      || i == |job.recipients| || (session == SESSION_LIMIT && !net.connectOk(opens))
      || !Delivers(net, o, mails) || job.delay < 0
    ensures Taken(Trail(job, fromAddr, i, session, net, opens, mails)) ==
            Sends(job, fromAddr, i, Walk(job, i, session, net, opens, mails).next)
    ensures Answered(Trail(job, fromAddr, i, session, net, opens, mails), net, mails)
  {
    if i == |job.recipients| || (session == SESSION_LIMIT && !net.connectOk(opens)) {
      assert Trail(job, fromAddr, i, session, net, opens, mails) == [];
      assert Walk(job, i, session, net, opens, mails).next == i;
    } else {
      var o := if session == SESSION_LIMIT then opens + 1 else opens;
      var to, body := job.recipients[i].email, Body(job, i);
      AttemptsTaken(fromAddr, to, job.subject, body, net, o, mails);
      TrailEnd(job, fromAddr, i, session, net, opens, mails);
      if Delivers(net, o, mails) {
        assert Sends(job, fromAddr, i, i + 1) == [Mail(fromAddr, to, job.subject, body, Accepted)] + Sends(job, fromAddr, i + 1, i + 1);
      }
    }
  }

  /** One row's attempts in front of the rest of a trail. */
  lemma HandOver(a: seq<Event>, rest: seq<Event>, m: Event, sends: seq<Event>, net: Net, mails: nat, mails': nat)
    requires Taken(a) == [m] && Answered(a, net, mails)
    requires Taken(rest) == sends && Answered(rest, net, mails') && mails' == mails + |a|
    ensures Taken(a + rest) == [m] + sends && Answered(a + rest, net, mails)
  {
    TakenAppend(a, rest);
    AnsweredAppend(a, rest, net, mails, mails');
  }

  /** The trail from a delivered row hands over that row, then what the trail from the next row hands over. */
  lemma TrailSendsOn(job: Job, fromAddr: Option<string>, i: nat, session: nat, net: Net, opens: nat, mails: nat,
                     next: nat, opens': nat, mails': nat)
    requires i < |job.recipients| && session <= SESSION_LIMIT && job.delay >= 0
    requires session < SESSION_LIMIT || net.connectOk(opens)
    requires var o := if session == SESSION_LIMIT then opens + 1 else opens;
      var taken := net.reply(mails) == Accepted;
      && Delivers(net, o, mails)
      && next == (if session == SESSION_LIMIT then 0 else session) + 1
      && opens' == (if taken then o else o + 1)
      && mails' == (if taken then mails + 1 else mails + 2)
    requires next <= SESSION_LIMIT
    requires Taken(Trail(job, fromAddr, i + 1, next, net, opens', mails')) ==
             Sends(job, fromAddr, i + 1, Walk(job, i + 1, next, net, opens', mails').next)
    requires Answered(Trail(job, fromAddr, i + 1, next, net, opens', mails'), net, mails')
    ensures Taken(Trail(job, fromAddr, i, session, net, opens, mails)) ==
            Sends(job, fromAddr, i, Walk(job, i, session, net, opens, mails).next)
    ensures Answered(Trail(job, fromAddr, i, session, net, opens, mails), net, mails)
  {
    var o := if session == SESSION_LIMIT then opens + 1 else opens;
    var to, body := job.recipients[i].email, Body(job, i);
    var a := Attempts(fromAddr, to, job.subject, body, net, o, mails);
    var rest := Trail(job, fromAddr, i + 1, next, net, opens', mails');
    var hi := Walk(job, i + 1, next, net, opens', mails').next;
    AttemptsTaken(fromAddr, to, job.subject, body, net, o, mails);
    TrailStep(job, fromAddr, i, session, net, opens, mails, a, next, opens', mails');
    WalkStep(job, i, session, net, opens, mails, next, opens', mails');
    var m := Mail(fromAddr, to, job.subject, body, Accepted);
    assert Taken(a) == [m] && mails' == mails + |a|;
    HandOver(a, rest, m, Sends(job, fromAddr, i + 1, hi), net, mails, mails');
    assert Sends(job, fromAddr, i, hi) == [m] + Sends(job, fromAddr, i + 1, hi);
  }

  /**
   * The reference trail hands each row the walk sends over exactly once, in
   * row order, and nothing else; and every attempt on it got the relay's
   * next answer.
   */
  lemma {:induction false} TrailSends(job: Job, fromAddr: Option<string>, i: nat, session: nat, net: Net, opens: nat, mails: nat)
    requires i <= |job.recipients| && session <= SESSION_LIMIT
    ensures Taken(Trail(job, fromAddr, i, session, net, opens, mails)) ==
            Sends(job, fromAddr, i, Walk(job, i, session, net, opens, mails).next)
    ensures Answered(Trail(job, fromAddr, i, session, net, opens, mails), net, mails)
    decreases |job.recipients| - i
  {
    var o := if session == SESSION_LIMIT then opens + 1 else opens;
    if i == |job.recipients| || (session == SESSION_LIMIT && !net.connectOk(opens)) || !Delivers(net, o, mails) || job.delay < 0 {
      TrailSendsEnd(job, fromAddr, i, session, net, opens, mails);
    } else {
      var taken := net.reply(mails) == Accepted;
      var next := (if session == SESSION_LIMIT then 0 else session) + 1;
      var o', m' := (if taken then o else o + 1), (if taken then mails + 1 else mails + 2);
      TrailSends(job, fromAddr, i + 1, next, net, o', m');
      TrailSendsOn(job, fromAddr, i, session, net, opens, mails, next, o', m');
    }
  }

  /**
   * The relay's part of a pass in terms of its cursors alone: a pass that got
   * past the rotation made exactly the attempts `send_email` makes for row
   * `i`, used up one reply per attempt, and was sent exactly when they
   * delivered; a failed reconnect delivered nothing.
   */
  ghost predicate Paced(job: Job, i: nat, session: nat, fromAddr: Option<string>, world: World, v: Visited)
    requires i < |job.recipients|
  {
    var o := if session == SESSION_LIMIT then world.opens + 1 else world.opens;
    var m := world.mails;
    && (v.pass.Unreconnected? ==> Deliveries(v.events) == [] && v.world.mails == m)
    && (!v.pass.Unreconnected? ==>
          && Deliveries(v.events) == Attempts(fromAddr, job.recipients[i].email, job.subject, Body(job, i), world.net, o, m)
          && v.world.mails == m + |Deliveries(v.events)|
          && (v.pass.Sent? <==> Delivers(world.net, o, m))
          && (v.pass.Sent? ==>
                && v.session == (if session == SESSION_LIMIT then 0 else session) + 1
                && v.world.opens == (if world.net.reply(m) == Accepted then o else o + 1)))
  }

  /** A pass keeps to the relay's answers at its cursors. */
  lemma VisitPaced(job: Job, i: nat, session: nat, sender: Sender, world: World, v: Visited)
    requires i < |job.recipients| && session <= SESSION_LIMIT && sender.connected
    requires VisitOracle(job, i, session, sender, world, v)
    ensures Paced(job, i, session, sender.fromAddr, world, v)
  {
    var rot := Rotate(session, sender, world);
    if rot.ok {
      SendEmailAttempts(rot.sender, rot.world, job.recipients[i].email, job.subject, Body(job, i));
    }
  }

  /**
   * A successful pass with a non-negative delay delivered what the trail
   * holds for row `i`, and the rest of the trail follows from its cursors;
   * one delivery was accepted, after at most one other attempt.
   */
  lemma TrailOn(job: Job, i: nat, session: nat, fromAddr: Option<string>, world: World, v: Visited)
    requires i < |job.recipients| && session <= SESSION_LIMIT
    requires Paced(job, i, session, fromAddr, world, v) && v.pass.Sent? && job.delay >= 0
    requires session < SESSION_LIMIT || world.net.connectOk(world.opens)
    ensures Trail(job, fromAddr, i, session, world.net, world.opens, world.mails) ==
            Deliveries(v.events) + Trail(job, fromAddr, i + 1, v.session, world.net, v.world.opens, v.world.mails)
    ensures v.world.mails == world.mails + |Deliveries(v.events)|
    ensures Accepts(Deliveries(v.events)) == 1 && 1 <= |Deliveries(v.events)| <= 2
  {
    var net, m := world.net, world.mails;
    var o := if session == SESSION_LIMIT then world.opens + 1 else world.opens;
    var a := Attempts(fromAddr, job.recipients[i].email, job.subject, Body(job, i), net, o, m);
    assert |a| == if net.reply(m) == Accepted then 1 else 2;
    TrailStep(job, fromAddr, i, session, net, world.opens, m, Deliveries(v.events), v.session, v.world.opens, v.world.mails);
    AttemptsAccepts(fromAddr, job.recipients[i].email, job.subject, Body(job, i), net, o, m);
  }

  /** A pass that ends the loop delivered all that is left of the trail. */
  lemma TrailStop(job: Job, i: nat, session: nat, fromAddr: Option<string>, world: World, v: Visited)
    requires i < |job.recipients| && session <= SESSION_LIMIT
    requires Paced(job, i, session, fromAddr, world, v) && (!v.pass.Sent? || job.delay < 0)
    requires v.pass.Unreconnected? <==> session == SESSION_LIMIT && !world.net.connectOk(world.opens)
    ensures Trail(job, fromAddr, i, session, world.net, world.opens, world.mails) == Deliveries(v.events)
    ensures v.world.mails == world.mails + |Deliveries(v.events)|
    ensures Accepts(Deliveries(v.events)) == (if v.pass.Sent? then 1 else 0)
    ensures |Deliveries(v.events)| <= 2 && (v.pass.Unsent? ==> 1 <= |Deliveries(v.events)|)
  {
    if !v.pass.Unreconnected? {
      var o := if session == SESSION_LIMIT then world.opens + 1 else world.opens;
      AttemptsAccepts(fromAddr, job.recipients[i].email, job.subject, Body(job, i), world.net, o, world.mails);
    } else {
      TallyNil(Accepting);
    }
  }

  /** A successful pass at row `i` with a non-negative delay moves the loop to row `i + 1`. */
  lemma LoopStep(job: Job, first: nat, s: Sender, w: World, target: Halt, trail: seq<Event>, i: nat, session: nat, sender: Sender, world: World,
                 events: seq<Event>, v: Visited)
    requires i < |job.recipients| && Looping(job, first, s, w, target, trail, i, session, sender, world, events)
    requires VisitedRow(job, i, session, sender, world, v) && v.pass.Sent? && job.delay >= 0
    ensures Looping(job, first, s, w, target, trail, i + 1, v.session, v.sender, v.world, events + v.events)
  {
    WalkOn(job, i, session, sender, world, v);
    TrailOn(job, i, session, sender.fromAddr, world, v);
    StepD(w, trail, first, i, world.mails, events, Trail(job, s.fromAddr, i, session, w.net, world.opens, world.mails),
          v.events, v.world.mails, Trail(job, s.fromAddr, i + 1, v.session, w.net, v.world.opens, v.world.mails));
    HealthyAt(w.net, world.opens, world.mails);
    MailsToStep(job, s.fromAddr, events, v.events, first, i);
    StepP(first, i, events, v.events);
    StepC(w.net, first, i, session, events, v.events, v.session);
  }

  /** The loop's value when the pass at row `i` failed. */
  function Broken(first: nat, i: nat, events: seq<Event>, v: Visited): LoopEnd
    requires first <= i
  {
    LoopEnd(if v.pass.Unsent? then SendFailed else ReconnectFailed, i, v.session, i - first, v.sender, v.world, events + v.events)
  }

  /** A failed pass ends the loop at its own row, with the session settings kept. */
  lemma BreakRows(job: Job, first: nat, s: Sender, w: World, i: nat, session: nat, sender: Sender, world: World,
                  events: seq<Event>, v: Visited)
    requires i < |job.recipients| && LoopRows(job, first, s, w, i, session, sender, world)
    requires VisitMoves(session, sender, world, v) && !v.pass.Sent?
    ensures EndedRows(job, first, s, w, Broken(first, i, events, v))
  {
  }

  /** A failed pass leaves the rows before it announced and checkpointed in order; a failed send announced its row. */
  lemma BreakProgress(first: nat, i: nat, events: seq<Event>, v: Visited)
    requires first <= i && InvP(first, i, events) && !v.pass.Sent?
    requires Announced(v.events) == (if v.pass.Unreconnected? then [] else [i])
    requires Saved(v.events) == []
    ensures var l := Broken(first, i, events, v);
      && Announced(l.events) == Range(first, Tried(l.exit, l.next))
      && Saved(l.events) == Range(first + 1, l.next + 1)
  {
    StopP(first, i, events, v.events, v.pass.Unsent?);
  }

  /** A failed send delivered to its own row at most, and a failed reconnect to no row at all. */
  lemma BreakMails(job: Job, first: nat, s: Sender, i: nat, sender: Sender, events: seq<Event>, v: Visited)
    requires first <= i < |job.recipients| && sender.fromAddr == s.fromAddr && !v.pass.Sent?
    requires MailsTo(job, s.fromAddr, events, first, i)
    requires AllMailAs(v.events, sender.fromAddr, job.recipients[i].email, job.subject, Body(job, i))
    requires v.pass.Unreconnected? ==> forall e :: e in v.events ==> !e.Mail?
    ensures var l := Broken(first, i, events, v);
      MailsTo(job, s.fromAddr, l.events, first, Tried(l.exit, l.next))
  {
    if v.pass.Unsent? {
      MailsToStep(job, s.fromAddr, events, v.events, first, i);
    } else {
      forall e | e in events + v.events && e.Mail?
        ensures e.fromAddr == s.fromAddr && e.subject == job.subject && exists j :: first <= j < i && MailFor(job, e, j)
      {
        assert e in events;
      }
    }
  }

  /** A failed pass keeps the session arithmetic, and cannot happen on a healthy network. */
  lemma BreakSessions(job: Job, first: nat, s: Sender, w: World, i: nat, session: nat, sender: Sender, world: World,
                      events: seq<Event>, v: Visited)
    requires i < |job.recipients| && LoopRows(job, first, s, w, i, session, sender, world)
    requires InvC(w.net, first, i, session, events)
    requires VisitMoves(session, sender, world, v) && VisitCounts(session, world, v) && !v.pass.Sent?
    ensures EndedSessions(w, Broken(first, i, events, v))
  {
    HealthyAt(w.net, world.opens, world.mails);
    StopC(w.net, first, i, session, events, v.events, v.session, v.pass.Unreconnected?);
  }

  /**
   * The `break` out of the loop at row `i`: the pass failed, so the loop ends
   * with the rows before `i` sent; a failed send announced row `i`, a failed
   * reconnect did not.
   */
  method Break(job: Job, first: nat, s: Sender, w: World, ghost target: Halt, ghost trail: seq<Event>, i: nat, session: nat, sender: Sender, world: World,
               events: seq<Event>, v: Visited) returns (l: LoopEnd)
    requires i < |job.recipients| && Looping(job, first, s, w, target, trail, i, session, sender, world, events)
    requires VisitedRow(job, i, session, sender, world, v) && !v.pass.Sent?
    ensures EndedAt(job, first, s, w, l, target, trail) && (l.exit.SendFailed? || l.exit.ReconnectFailed?)
  {
    WalkStop(job, i, session, sender, world, v);
    BreakRows(job, first, s, w, i, session, sender, world, events, v);
    BreakProgress(first, i, events, v);
    BreakMails(job, first, s, i, sender, events, v);
    BreakSessions(job, first, s, w, i, session, sender, world, events, v);
    TrailStop(job, i, session, sender.fromAddr, world, v);
    l := Broken(first, i, events, v);
    StopD(w, trail, first, events, v.events, l);
  }

  /**
   * The `ValueError` of `time.sleep` on a negative delay: row `i` was sent and
   * checkpointed, and the exception leaves the loop right after.
   */
  method Raise(job: Job, first: nat, s: Sender, w: World, ghost target: Halt, ghost trail: seq<Event>, i: nat, session: nat, sender: Sender, world: World,
               events: seq<Event>, v: Visited) returns (l: LoopEnd)
    requires i < |job.recipients| && Looping(job, first, s, w, target, trail, i, session, sender, world, events)
    requires VisitedRow(job, i, session, sender, world, v) && v.pass.Sent? && job.delay < 0
    ensures EndedAt(job, first, s, w, l, target, trail) && l.exit.SleepRaised?
  {
    WalkStop(job, i, session, sender, world, v);
    HealthyAt(w.net, world.opens, world.mails);
    MailsToStep(job, s.fromAddr, events, v.events, first, i);
    StepP(first, i, events, v.events);
    StepC(w.net, first, i, session, events, v.events, v.session);
    TrailStop(job, i, session, sender.fromAddr, world, v);
    l := LoopEnd(SleepRaised, i + 1, v.session, i + 1 - first, v.sender, v.world, events + v.events);
    StopD(w, trail, first, events, v.events, l);
  }

  /** Before the first row nothing was sent, announced, checkpointed or rotated. */
  lemma LoopStart(job: Job, first: nat, s: Sender, w: World)
    requires first <= |job.recipients| && s.connected
    ensures Looping(job, first, s, w, Walk(job, first, 0, w.net, w.opens, w.mails),
                    Trail(job, s.fromAddr, first, 0, w.net, w.opens, w.mails), first, 0, s, w, [])
  {
    assert Range(first, first) == [] && Range(first + 1, first + 1) == [];
    TallyNil(Accepting);
  }

  /** Running out of rows ends the loop with every row from `first` on sent. */
  method Done(job: Job, first: nat, s: Sender, w: World, ghost target: Halt, ghost trail: seq<Event>,
              i: nat, session: nat, sender: Sender, world: World, events: seq<Event>) returns (l: LoopEnd)
    requires Looping(job, first, s, w, target, trail, i, session, sender, world, events) && i == |job.recipients|
    ensures EndedAt(job, first, s, w, l, target, trail) && l.exit.Exhausted?
  {
    MailsToWiden(job, s.fromAddr, events, first, i, i + 1);
    AppendNil(Deliveries(events));
    l := LoopEnd(Exhausted, i, session, i - first, sender, world, events);
  }

  /**
   * One turn of the loop at row `i`: the pass, then either the `break` (a
   * failed pass or a raising pause), which ends the loop with `stop`, or the
   * step to row `i + 1`.
   */
  method Turn(job: Job, first: nat, s: Sender, w: World, ghost target: Halt, ghost trail: seq<Event>, i: nat, session: nat, sender: Sender, world: World,
              events: seq<Event>) returns (stop: Option<LoopEnd>, v: Visited)
    requires i < |job.recipients| && Looping(job, first, s, w, target, trail, i, session, sender, world, events)
    ensures match stop
            case Some(l) => EndedAt(job, first, s, w, l, target, trail)
            case None => Looping(job, first, s, w, target, trail, i + 1, v.session, v.sender, v.world, events + v.events)
  {
    v := VisitRow(job, i, session, sender, world);
    if !v.pass.Sent? {
      var l := Break(job, first, s, w, target, trail, i, session, sender, world, events, v);
      return Some(l), v;
    }
    if job.delay < 0 {
      var l := Raise(job, first, s, w, target, trail, i, session, sender, world, events, v);
      return Some(l), v;
    }
    LoopStep(job, first, s, w, target, trail, i, session, sender, world, events, v);
    stop := None;
  }

  /**
   * The `for` loop over `df.iloc[first:]` from row `i` on, one turn per row:
   * rows are visited in ascending order until one fails, a negative pause
   * raises, or none is left, and the loop stops at `target` having
   * delivered `trail`.
   */
  method Loop(job: Job, first: nat, s: Sender, w: World, ghost target: Halt, ghost trail: seq<Event>,
              i: nat, session: nat, sender: Sender, world: World, events: seq<Event>) returns (l: LoopEnd)
    requires Looping(job, first, s, w, target, trail, i, session, sender, world, events)
    ensures EndedAt(job, first, s, w, l, target, trail)
    decreases |job.recipients| - i, 1
  {
    if i == |job.recipients| {
      l := Done(job, first, s, w, target, trail, i, session, sender, world, events);
    } else {
      l := Go(job, first, s, w, target, trail, i, session, sender, world, events);
    }
  }

  /** One turn at row `i`, and the rest of the loop after it unless the turn ended it. */
  method Go(job: Job, first: nat, s: Sender, w: World, ghost target: Halt, ghost trail: seq<Event>,
            i: nat, session: nat, sender: Sender, world: World, events: seq<Event>) returns (l: LoopEnd)
    requires i < |job.recipients| && Looping(job, first, s, w, target, trail, i, session, sender, world, events)
    ensures EndedAt(job, first, s, w, l, target, trail)
    decreases |job.recipients| - i, 0
  {
    var stop, v := Turn(job, first, s, w, target, trail, i, session, sender, world, events);
    match stop
    case Some(end) =>
      l := end;
    case None =>
      var i', session', sender', world', events' := i + 1, v.session, v.sender, v.world, events + v.events;
      l := Loop(job, first, s, w, target, trail, i', session', sender', world', events');
  }

  /** The loop from row `first`: it stops where and why the reference walk does, and delivers the reference trail. */
  method SendFrom(job: Job, first: nat, s: Sender, w: World) returns (l: LoopEnd)
    requires first <= |job.recipients| && s.connected
    ensures Ended(job, first, s, w, l)
    ensures Taken(Deliveries(l.events)) == Sends(job, s.fromAddr, first, l.next)
    ensures Answered(Deliveries(l.events), w.net, w.mails)
  {
    LoopStart(job, first, s, w);
    l := Loop(job, first, s, w, Walk(job, first, 0, w.net, w.opens, w.mails),
              Trail(job, s.fromAddr, first, 0, w.net, w.opens, w.mails), first, 0, s, w, []);
    TrailSends(job, s.fromAddr, first, 0, w.net, w.opens, w.mails);
  }
}
