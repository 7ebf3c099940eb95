/**
 * `run_sender` from the checkpoint read onwards: read the stored position,
 * return early when nothing is left, open the session, run the bulk-send
 * loop, and close the session in `finally`. The checkpoint writes the loop
 * makes are applied to the counter file in the order they were made. A run
 * that ends in `Finished(SleepRaised)` closed its session and then lets the
 * `ValueError` of `time.sleep` escape to its caller.
 */
module Run {
  import opened Base
  import opened Env
  import opened Transport
  import opened Dispatch
  import Counter
  import Sheet

  /** How a run ended. */
  datatype Outcome =
    | CounterUnreadable   // `read_counter` raised: the stored text is not an integer
    | NothingToSend       // the stored position is at or past the last row
    | ConnectFailed       // the first `connect` failed
    | Finished(exit: Exit)

  /**
   * A run's result: `first` is the first row the loop visited, `next` the
   * first row it did not deliver, and `sent` the number of rows it delivered
   * (`emails_sent_total`); `world` holds the counter file as the run left it.
   */
  datatype Run = Run(outcome: Outcome, first: nat, next: nat, sent: nat, sender: Sender, world: World, events: seq<Event>)

  /** The loop's events, bracketed by a connect and a disconnect that write nothing and deliver nothing. */
  lemma BracketProjections(open: Event, loop: seq<Event>, close: seq<Event>)
    requires open.Open? && (close == [] || close == [Quit])
    ensures var all := [open] + loop + close;
      && Announced(all) == Announced(loop) && Saved(all) == Saved(loop)
      && Deliveries(all) == Deliveries(loop)
      && Opens(all) == 1 + Opens(loop)
      && Quits(all) == Quits(loop) + |close|
      && Rotations(all) == Rotations(loop)
  {
    ProjectionsSingle(open);
    AnnouncedAppend([open], loop);
    SavedAppend([open], loop);
    DeliveriesAppend([open], loop);
    CountsAppend([open], loop);
    AnnouncedAppend([open] + loop, close);
    SavedAppend([open] + loop, close);
    DeliveriesAppend([open] + loop, close);
    CountsAppend([open] + loop, close);
    if close == [] {
      assert [open] + loop + close == [open] + loop;
    } else {
      ProjectionsSingle(Quit);
    }
  }

  /** Mail-free events around the loop's events keep every delivery where it was addressed. */
  lemma BracketMails(job: Job, fromAddr: Option<string>, open: Event, loop: seq<Event>, close: seq<Event>, lo: int, hi: int)
    requires !open.Mail? && forall e :: e in close ==> !e.Mail?
    requires MailsTo(job, fromAddr, loop, lo, hi)
    ensures MailsTo(job, fromAddr, [open] + loop + close, lo, hi)
  {
    forall e | e in [open] + loop + close && e.Mail?
      ensures e.fromAddr == fromAddr && e.subject == job.subject && exists j :: lo <= j < hi && MailFor(job, e, j)
    {
      assert e in loop;
    }
  }

  /** `emails_in_session` restarts every `SESSION_LIMIT` sends, so a full session number is a quotient. */
  lemma RotationCount(rotations: nat, session: nat, sent: nat)
    requires 1 <= session <= SESSION_LIMIT && SESSION_LIMIT * rotations + session == sent
    ensures rotations == (sent - 1) / SESSION_LIMIT
  {
    assert sent - 1 == SESSION_LIMIT * rotations + (session - 1);
  }

  /**
   * The loop's checkpoint writes `first + 1 .. next`, applied to the counter
   * file: untouched when nothing was sent, else holding the position after
   * the last row sent. Either way the next run starts at row `next`.
   */
  method Checkpoint(file: Option<string>, start: int, n: nat, first: nat, next: nat, saved: seq<int>)
    returns (after: Option<string>)
    requires Counter.ReadCounter(file) == Success(start) && first == Sheet.SliceStart(start, n)
    requires first <= next <= n && saved == Range(first + 1, next + 1)
    ensures next == first ==> after == file
    ensures next > first ==> Counter.ReadCounter(after) == Success(next)
    ensures Counter.ReadCounter(after).Success?
    ensures Sheet.SliceStart(Counter.ReadCounter(after).value, n) == next
  {
    if next > first {
      RangeLast(first + 1, next + 1);
    }
    after := Counter.SaveEach(file, saved);
  }

  /** The checkpoint was written once per row sent, in order: `first + 1 .. next`. */
  ghost predicate Checkpointed(r: Run)
  {
    Saved(r.events) == Range(r.first + 1, r.next + 1)
  }

  /**
   * A finished run delivered `trail`, starting at the relay's reply cursor
   * `mails`: each attempt used up one reply, one delivery was accepted per
   * row sent, and every row tried took one attempt or two.
   */
  ghost predicate Delivered(r: Run, mails: nat, trail: seq<Event>)
  {
    && r.outcome.Finished?
    && Deliveries(r.events) == trail
    && r.world.mails == mails + |trail|
    && Accepts(trail) == r.sent
    && Tried(r.outcome.exit, r.next) - r.first <= |trail| <= 2 * (Tried(r.outcome.exit, r.next) - r.first)
  }

  /**
   * A run that reached the loop: its trace is the first connect, the loop's
   * events and the final disconnect, so it announces, checkpoints and
   * delivers exactly what the loop did.
   */
  lemma FinishedTrace(job: Job, fromAddr: Option<string>, l: LoopEnd, close: seq<Event>, r: Run)
    requires close == [] || close == [Quit]
    requires r.events == [Open(true)] + l.events + close
    requires r.outcome == Finished(l.exit) && r.next == l.next
    requires Announced(l.events) == Range(r.first, Tried(l.exit, l.next))
    requires Saved(l.events) == Range(r.first + 1, l.next + 1)
    requires MailsTo(job, fromAddr, l.events, r.first, Tried(l.exit, l.next))
    ensures |r.events| > 0 && r.events[0] == Open(true)
    ensures Announced(r.events) == Range(r.first, Tried(r.outcome.exit, r.next))
    ensures Checkpointed(r)
    ensures MailsTo(job, fromAddr, r.events, r.first, Tried(r.outcome.exit, r.next))
    ensures Deliveries(r.events) == Deliveries(l.events)
  {
    BracketProjections(Open(true), l.events, close);
    BracketMails(job, fromAddr, Open(true), l.events, close, r.first, Tried(l.exit, l.next));
  }

  /** On a healthy network the loop only connects and quits when it rotates. */
  lemma HealthyRun(l: LoopEnd, close: seq<Event>)
    requires close == [Quit] && l.sent > 0 && 1 <= l.session <= SESSION_LIMIT
    requires SESSION_LIMIT * Rotations(l.events) + l.session == l.sent
    requires Quits(l.events) == Rotations(l.events) && Opens(l.events) == Rotations(l.events)
    ensures Opens([Open(true)] + l.events + close) == 1 + (l.sent - 1) / SESSION_LIMIT
    ensures Quits([Open(true)] + l.events + close) == Opens([Open(true)] + l.events + close)
  {
    BracketProjections(Open(true), l.events, close);
    RotationCount(Rotations(l.events), l.session, l.sent);
  }

  /**
   * The run after a successful first connect (sender.py lines 79-114): the
   * loop from the row the checkpoint names, the final disconnect, and the
   * loop's checkpoint writes applied to the counter file. It stops where the
   * reference walk over the relay's answers stops and delivers what the
   * reference trail holds.
   */
  method Finish(job: Job, s: Sender, w: World, start: int, c: Step) returns (r: Run)
    requires Counter.ReadCounter(w.counterFile) == Success(start) && start < |job.recipients|
    requires c.ok && c.sender.connected && c.sender.fromAddr == s.fromAddr && c.events == [Open(true)]
    requires c.world.net == w.net && c.world.counterFile == w.counterFile
    requires c.world.opens == w.opens + 1 && c.world.mails == w.mails
    ensures r.outcome.Finished?
    ensures !r.sender.connected && r.sender.fromAddr == s.fromAddr
    ensures r.first == Sheet.SliceStart(start, |job.recipients|)
    ensures r.first <= r.next <= |job.recipients| && r.sent == r.next - r.first
    ensures |r.events| > 0 && r.events[0] == Open(true)
    ensures r.outcome.exit.Exhausted? ==> r.next == |job.recipients|
    ensures r.outcome.exit.SendFailed? || r.outcome.exit.ReconnectFailed? ==> r.next < |job.recipients|
    ensures r.outcome.exit.SleepRaised? ==> job.delay < 0 && r.sent == 1
    ensures Announced(r.events) == Range(r.first, Tried(r.outcome.exit, r.next))
    ensures Checkpointed(r)
    ensures MailsTo(job, s.fromAddr, r.events, r.first, Tried(r.outcome.exit, r.next))
    ensures Counter.ReadCounter(r.world.counterFile).Success?
    ensures Sheet.SliceStart(Counter.ReadCounter(r.world.counterFile).value, |job.recipients|) == r.next
    ensures r.sent == 0 ==> r.world.counterFile == w.counterFile
    ensures r.sent > 0 ==> Counter.ReadCounter(r.world.counterFile) == Success(r.next)
    ensures Halt(r.outcome.exit, r.next) == Walk(job, r.first, 0, w.net, w.opens + 1, w.mails)
    ensures Delivered(r, w.mails, Trail(job, s.fromAddr, r.first, 0, w.net, w.opens + 1, w.mails))
    ensures Taken(Deliveries(r.events)) == Sends(job, s.fromAddr, r.first, r.next)
    ensures Answered(Deliveries(r.events), w.net, w.mails)
    ensures Healthy(w.net) ==>
              && r.outcome == Finished(if job.delay < 0 && r.first < |job.recipients| then SleepRaised else Exhausted)
              && Deliveries(r.events) == Sends(job, s.fromAddr, r.first, r.next)
              && (r.sent > 0 ==> Opens(r.events) == 1 + (r.sent - 1) / SESSION_LIMIT && Quits(r.events) == Opens(r.events))
  {
    var n := |job.recipients|;
    var first := Sheet.SliceStart(start, n);
    var l := SendFrom(job, first, c.sender, c.world);
    if Healthy(w.net) && first < n {
      HealthyEnd(job, first, c.world, l.exit, l.next);
    }
    r := Close(job, s, w, start, c, l, Trail(job, s.fromAddr, first, 0, w.net, w.opens + 1, w.mails));
    if Healthy(w.net) {
      HealthyAnswers(Deliveries(r.events), w.net, w.mails);
    }
  }

  /** What follows the loop: the final disconnect, and the checkpoint writes applied to the counter file. */
  method Close(job: Job, s: Sender, w: World, start: int, c: Step, l: LoopEnd, ghost trail: seq<Event>) returns (r: Run)
    requires Counter.ReadCounter(w.counterFile) == Success(start) && start < |job.recipients|
    requires c.sender.fromAddr == s.fromAddr && c.world.net == w.net && c.world.counterFile == w.counterFile
    requires EndedRows(job, Sheet.SliceStart(start, |job.recipients|), c.sender, c.world, l)
    requires EndedTrace(job, Sheet.SliceStart(start, |job.recipients|), c.sender, l)
    requires EndedSessions(c.world, l)
    requires EndedMails(Sheet.SliceStart(start, |job.recipients|), c.world, l, trail) && c.world.mails == w.mails
    ensures r.outcome == Finished(l.exit) && r.next == l.next
    ensures r.outcome.Finished?
    ensures !r.sender.connected && r.sender.fromAddr == s.fromAddr
    ensures r.first == Sheet.SliceStart(start, |job.recipients|)
    ensures r.first <= r.next <= |job.recipients| && r.sent == r.next - r.first
    ensures |r.events| > 0 && r.events[0] == Open(true)
    ensures r.outcome.exit.Exhausted? ==> r.next == |job.recipients|
    ensures r.outcome.exit.SendFailed? || r.outcome.exit.ReconnectFailed? ==> r.next < |job.recipients|
    ensures r.outcome.exit.SleepRaised? ==> job.delay < 0 && r.sent == 1
    ensures Announced(r.events) == Range(r.first, Tried(r.outcome.exit, r.next))
    ensures Checkpointed(r)
    ensures MailsTo(job, s.fromAddr, r.events, r.first, Tried(r.outcome.exit, r.next))
    ensures Counter.ReadCounter(r.world.counterFile).Success?
    ensures Sheet.SliceStart(Counter.ReadCounter(r.world.counterFile).value, |job.recipients|) == r.next
    ensures r.sent == 0 ==> r.world.counterFile == w.counterFile
    ensures r.sent > 0 ==> Counter.ReadCounter(r.world.counterFile) == Success(r.next)
    ensures Delivered(r, w.mails, trail)
    ensures Healthy(w.net) && r.sent > 0 && !r.outcome.exit.ReconnectFailed? && !r.outcome.exit.SendFailed? ==>
              Opens(r.events) == 1 + (r.sent - 1) / SESSION_LIMIT && Quits(r.events) == Opens(r.events)
  {
    var n := |job.recipients|;
    var first := Sheet.SliceStart(start, n);
    var d := Disconnect(l.sender);
    var file := Checkpoint(w.counterFile, start, n, first, l.next, Saved(l.events));
    if Healthy(w.net) && l.sent > 0 && !l.exit.ReconnectFailed? && !l.exit.SendFailed? {
      HealthyRun(l, d.events);
    }
    r := Run(Finished(l.exit), first, l.next, l.sent, d.sender, l.world.(counterFile := file), [Open(true)] + l.events + d.events);
    FinishedTrace(job, s.fromAddr, l, d.events, r);
  }

  /**
   * `run_sender` once the checkpoint names a row of the sheet, `start`: the
   * first connect, and after it the loop and the final disconnect.
   */
  method RunFrom(job: Job, s: Sender, w: World, start: int) returns (r: Run)
    requires !s.connected
    requires Counter.ReadCounter(w.counterFile) == Success(start) && start < |job.recipients|
    ensures r.outcome.ConnectFailed? <==> !w.net.connectOk(w.opens)
    ensures r.outcome.ConnectFailed? || r.outcome.Finished?
    ensures r.outcome.ConnectFailed? ==> r.sent == 0 && r.world.counterFile == w.counterFile && r.events == [Open(false)]
    ensures !r.sender.connected && r.sender.fromAddr == s.fromAddr
    ensures r.outcome.Finished? ==>
              && r.first == Sheet.SliceStart(start, |job.recipients|)
              && r.first <= r.next <= |job.recipients| && r.sent == r.next - r.first
              && |r.events| > 0 && r.events[0] == Open(true)
              && Halt(r.outcome.exit, r.next) == Walk(job, r.first, 0, w.net, w.opens + 1, w.mails)
              && Delivered(r, w.mails, Trail(job, s.fromAddr, r.first, 0, w.net, w.opens + 1, w.mails))
              && Taken(Deliveries(r.events)) == Sends(job, s.fromAddr, r.first, r.next)
              && Answered(Deliveries(r.events), w.net, w.mails)
              && (r.outcome.exit.Exhausted? ==> r.next == |job.recipients|)
              && (r.outcome.exit.SendFailed? || r.outcome.exit.ReconnectFailed? ==> r.next < |job.recipients|)
              && (r.outcome.exit.SleepRaised? ==> job.delay < 0 && r.sent == 1)
              && Announced(r.events) == Range(r.first, Tried(r.outcome.exit, r.next))
              && Checkpointed(r)
              && MailsTo(job, s.fromAddr, r.events, r.first, Tried(r.outcome.exit, r.next))
              && Counter.ReadCounter(r.world.counterFile).Success?
              && Sheet.SliceStart(Counter.ReadCounter(r.world.counterFile).value, |job.recipients|) == r.next
              && (r.sent == 0 ==> r.world.counterFile == w.counterFile)
              && (r.sent > 0 ==> Counter.ReadCounter(r.world.counterFile) == Success(r.next))
    ensures Healthy(w.net) ==>
              && r.outcome == Finished(if job.delay < 0 && r.first < |job.recipients| then SleepRaised else Exhausted)
              && Deliveries(r.events) == Sends(job, s.fromAddr, r.first, r.next)
              && (r.sent > 0 ==> Opens(r.events) == 1 + (r.sent - 1) / SESSION_LIMIT && Quits(r.events) == Opens(r.events))
  {
    var c := Connect(s, w);
    if !c.ok {
      return Run(ConnectFailed, 0, 0, 0, c.sender, c.world, c.events);
    }
    r := Finish(job, s, w, start, c);
  }

  /**
   * `run_sender` from `start_index = read_counter()` (sender.py line 68) on
   * a freshly built sender. `world.counterFile` at the end is the counter
   * file after the loop's `save_counter` calls.
   */
  method RunSender(job: Job, s: Sender, w: World) returns (r: Run)
    requires !s.connected
    ensures r.outcome.CounterUnreadable? <==> Counter.ReadCounter(w.counterFile).Failure?
    ensures r.outcome.NothingToSend? <==>
              Counter.ReadCounter(w.counterFile).Success? && Counter.ReadCounter(w.counterFile).value >= |job.recipients|
    ensures r.outcome.ConnectFailed? <==>
              && Counter.ReadCounter(w.counterFile).Success? && Counter.ReadCounter(w.counterFile).value < |job.recipients|
              && !w.net.connectOk(w.opens)
    ensures !r.outcome.Finished? ==>
              && r.sent == 0 && r.world.counterFile == w.counterFile
              && r.events == (if r.outcome.ConnectFailed? then [Open(false)] else [])
    ensures !r.sender.connected && r.sender.fromAddr == s.fromAddr
    ensures r.outcome.Finished? ==>
              && r.first == Sheet.SliceStart(Counter.ReadCounter(w.counterFile).value, |job.recipients|)
              && r.first <= r.next <= |job.recipients| && r.sent == r.next - r.first
              && |r.events| > 0 && r.events[0] == Open(true)
              && w.net.connectOk(w.opens)
              && Halt(r.outcome.exit, r.next) == Walk(job, r.first, 0, w.net, w.opens + 1, w.mails)
              && Delivered(r, w.mails, Trail(job, s.fromAddr, r.first, 0, w.net, w.opens + 1, w.mails))
              && Taken(Deliveries(r.events)) == Sends(job, s.fromAddr, r.first, r.next)
              && Answered(Deliveries(r.events), w.net, w.mails)
              && (r.outcome.exit.Exhausted? ==> r.next == |job.recipients|)
              && (r.outcome.exit.SendFailed? || r.outcome.exit.ReconnectFailed? ==> r.next < |job.recipients|)
              && (r.outcome.exit.SleepRaised? ==> job.delay < 0 && r.sent == 1)
              && Announced(r.events) == Range(r.first, Tried(r.outcome.exit, r.next))
              && Checkpointed(r)
              && MailsTo(job, s.fromAddr, r.events, r.first, Tried(r.outcome.exit, r.next))
              && Counter.ReadCounter(r.world.counterFile).Success?
              && Sheet.SliceStart(Counter.ReadCounter(r.world.counterFile).value, |job.recipients|) == r.next
              && (r.sent == 0 ==> r.world.counterFile == w.counterFile)
              && (r.sent > 0 ==> Counter.ReadCounter(r.world.counterFile) == Success(r.next))
    ensures Healthy(w.net) && Counter.ReadCounter(w.counterFile).Success?
              && Counter.ReadCounter(w.counterFile).value < |job.recipients| ==>
              && r.outcome == Finished(if job.delay < 0 && r.first < |job.recipients| then SleepRaised else Exhausted)
              && Deliveries(r.events) == Sends(job, s.fromAddr, r.first, r.next)
              && (r.sent > 0 ==> Opens(r.events) == 1 + (r.sent - 1) / SESSION_LIMIT && Quits(r.events) == Opens(r.events))
  {
    var n := |job.recipients|;
    var read := Counter.ReadCounter(w.counterFile);
    if read.Failure? {
      return Run(CounterUnreadable, 0, 0, 0, s, w, []);
    }
    var start := read.value;
    if start >= n {
      return Run(NothingToSend, 0, 0, 0, s, w, []);
    }
    r := RunFrom(job, s, w, start);
  }
}
