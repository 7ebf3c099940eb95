/**
 * `EmailSender`: one SMTP session that is either open (`server` set) or
 * closed (`server` is `None`), with a single inline reconnect when the relay
 * drops the session in the middle of a send.
 */
module Transport {
  import opened Base
  import opened Env
  import PyInt

  /** The sender's own state: its `From` address and whether `server` is set. */
  datatype Sender = Sender(fromAddr: Option<string>, connected: bool)

  /** What one call returns: its boolean result, the new state, and what it did. */
  datatype Step = Step(ok: bool, sender: Sender, world: World, events: seq<Event>)

  /** What `disconnect` leaves behind; it returns nothing. */
  datatype Closed = Closed(sender: Sender, events: seq<Event>)

  /** The `ValueError` of `int(smtp_port)` in the constructor. */
  datatype PortError = BadPort(text: string)

  /** `EmailSender(...)`: the port must parse as an integer; the new sender holds no session. */
  function NewSender(port: string, fromAddr: Option<string>): (r: Result<Sender, PortError>)
    ensures r.Success? <==> PyInt.Int(port).Some?
    ensures r.Success? ==> !r.value.connected && r.value.fromAddr == fromAddr
    ensures r.Failure? ==> r.error == BadPort(port)
  {
    if PyInt.Int(port).Some? then Success(Sender(fromAddr, false)) else Failure(BadPort(port))
  }

  /**
   * `connect`: one attempt at handshake, STARTTLS and login. It reports success
   * exactly when the session is up; any failure leaves `server` as `None`.
   */
  function Connect(s: Sender, w: World): (r: Step)
    ensures r.sender.connected <==> r.ok
    ensures r.ok <==> w.net.connectOk(w.opens)
    ensures r.sender.fromAddr == s.fromAddr
    ensures r.events == [Open(r.ok)]
    ensures r.world == w.(opens := w.opens + 1)
  {
    var ok := w.net.connectOk(w.opens);
    Step(ok, s.(connected := ok), w.(opens := w.opens + 1), [Open(ok)])
  }

  /**
   * `disconnect`: `quit` a live session; a failing `quit` is only logged.
   * Never raises, always ends with `server` as `None`, and does nothing when
   * already disconnected.
   */
  function Disconnect(s: Sender): (r: Closed)
    ensures !r.sender.connected
    ensures r.sender.fromAddr == s.fromAddr
    ensures !s.connected ==> r == Closed(s, [])
    ensures s.connected ==> r.events == [Quit]
  {
    if s.connected then Closed(s.(connected := false), [Quit]) else Closed(s, [])
  }

  /** Disconnecting twice is disconnecting once. */
  lemma DisconnectIdempotent(s: Sender)
    ensures Disconnect(Disconnect(s).sender) == Closed(Disconnect(s).sender, [])
  {
  }

  /** Every delivery attempt in `es` carries these sender, recipient, subject and body. */
  predicate AllMailAs(es: seq<Event>, fromAddr: Option<string>, to: string, subject: string, body: string)
  {
    forall e :: e in es && e.Mail? ==> e == Mail(fromAddr, to, subject, body, e.reply)
  }

  /** Events without a delivery attempt carry any message vacuously. */
  lemma MaillessAllMailAs(es: seq<Event>, fromAddr: Option<string>, to: string, subject: string, body: string)
    requires forall e :: e in es ==> !e.Mail?
    ensures AllMailAs(es, fromAddr, to, subject, body)
  {
  }

  lemma AllMailAsAppend(a: seq<Event>, b: seq<Event>, fromAddr: Option<string>, to: string, subject: string, body: string)
    requires AllMailAs(a, fromAddr, to, subject, body) && AllMailAs(b, fromAddr, to, subject, body)
    ensures AllMailAs(a + b, fromAddr, to, subject, body)
  {
  }

  /**
   * `send_email`: refuse without a session; otherwise one `sendmail`. When the
   * relay drops the session, reconnect once and, if that works, resend once;
   * the resend's result is the answer. Any other error is a plain failure.
   */
  function SendEmail(s: Sender, w: World, to: string, subject: string, body: string): (r: Step)
    ensures !s.connected ==> r == Step(false, s, w, [])
    ensures r.sender.fromAddr == s.fromAddr
    ensures r.ok ==> r.sender == s
    ensures r.world.net == w.net && r.world.counterFile == w.counterFile
  {
    if !s.connected then Step(false, s, w, [])
    else
      var first := w.net.reply(w.mails);
      var w1 := w.(mails := w.mails + 1);
      var e1 := Mail(s.fromAddr, to, subject, body, first);
      match first
      case Accepted => Step(true, s, w1, [e1])
      case Refused => Step(false, s, w1, [e1])
      case ServerDisconnected =>
        var c := Connect(s, w1);
        if !c.ok then
          assert [e1] + c.events == [e1, Open(false)];
          Step(false, c.sender, c.world, [e1] + c.events)
        else
          var second := c.world.net.reply(c.world.mails);
          var e2 := Mail(s.fromAddr, to, subject, body, second);
          assert [e1] + c.events + [e2] == [e1, Open(true), e2];
          Step(second == Accepted, c.sender, c.world.(mails := c.world.mails + 1), [e1] + c.events + [e2])
  }

  /** A send only connects and delivers, and every delivery carries the given message. */
  lemma SendEmailEvents(s: Sender, w: World, to: string, subject: string, body: string)
    ensures var r := SendEmail(s, w, to, subject, body);
      && (forall e :: e in r.events ==> e.Open? || e.Mail?)
      && AllMailAs(r.events, s.fromAddr, to, subject, body)
  {
  }

  /** `send_email` returns true exactly when one of its delivery attempts was accepted. */
  lemma SendEmailResult(s: Sender, w: World, to: string, subject: string, body: string)
    ensures var r := SendEmail(s, w, to, subject, body);
      && (r.ok <==> Mail(s.fromAddr, to, subject, body, Accepted) in r.events)
      && (r.sender.connected <==> s.connected && Open(false) !in r.events)
  {
  }

  /**
   * At most two delivery attempts and one reconnect; the reconnect happens
   * exactly when the relay dropped the session, and a second attempt only
   * after the reconnect succeeded.
   */
  lemma SendEmailRetryBound(s: Sender, w: World, to: string, subject: string, body: string)
    ensures var r := SendEmail(s, w, to, subject, body);
      && |Deliveries(r.events)| <= 2
      && (|Deliveries(r.events)| == 2 ==> Open(true) in r.events)
  {
    var r := SendEmail(s, w, to, subject, body);
    var first := w.net.reply(w.mails);
    var e1 := Mail(s.fromAddr, to, subject, body, first);
    if !s.connected {
    } else if first != ServerDisconnected {
      assert r.events == [e1];
      ProjectionsSingle(e1);
    } else if w.net.connectOk(w.opens) {
      var e2 := Mail(s.fromAddr, to, subject, body, w.net.reply(w.mails + 1));
      assert r.events == [e1] + [Open(true)] + [e2];
      DeliveriesAppend([e1] + [Open(true)], [e2]);
      DeliveriesAppend([e1], [Open(true)]);
      ProjectionsSingle(e1);
      ProjectionsSingle(Open(true));
      ProjectionsSingle(e2);
    } else {
      assert r.events == [e1] + [Open(false)];
      DeliveriesAppend([e1], [Open(false)]);
      ProjectionsSingle(e1);
      ProjectionsSingle(Open(false));
    }
  }

  /**
   * One reconnect at most, and exactly when the relay dropped the session; a
   * send never quits, never rotates, and writes no progress line or checkpoint.
   */
  lemma SendEmailReconnects(s: Sender, w: World, to: string, subject: string, body: string)
    ensures var r := SendEmail(s, w, to, subject, body);
      && Opens(r.events) == (if s.connected && w.net.reply(w.mails) == ServerDisconnected then 1 else 0)
      && Quits(r.events) == 0
      && Rotations(r.events) == 0
      && Quiet(r.events)
  {
    var r := SendEmail(s, w, to, subject, body);
    var first := w.net.reply(w.mails);
    var e1 := Mail(s.fromAddr, to, subject, body, first);
    ProjectionsSingle(e1);
    if !s.connected {
    } else if first != ServerDisconnected {
      assert r.events == [e1];
    } else {
      var o := Open(w.net.connectOk(w.opens));
      ProjectionsSingle(o);
      CountsAppend([e1], [o]);
      QuietAppend([e1], [o]);
      if w.net.connectOk(w.opens) {
        var e2 := Mail(s.fromAddr, to, subject, body, w.net.reply(w.mails + 1));
        assert r.events == [e1] + [o] + [e2];
        ProjectionsSingle(e2);
        CountsAppend([e1] + [o], [e2]);
        QuietAppend([e1] + [o], [e2]);
      } else {
        assert r.events == [e1] + [o];
      }
    }
  }

  /**
   * Whether `send_email` on a live session delivers, read off the relay's
   * answers at the cursors: accepted at once, or dropped, reconnected and
   * accepted on the resend.
   */
  predicate Delivers(net: Net, opens: nat, mails: nat)
  {
    || net.reply(mails) == Accepted
    || (net.reply(mails) == ServerDisconnected && net.connectOk(opens) && net.reply(mails + 1) == Accepted)
  }

  /**
   * The delivery attempts `send_email` makes on a live session, read off the
   * relay's answers at the cursors: the first `sendmail`, and a resend only
   * after a dropped session that reopens.
   */
  function Attempts(fromAddr: Option<string>, to: string, subject: string, body: string,
                    net: Net, opens: nat, mails: nat): (ds: seq<Event>)
    ensures 1 <= |ds| <= 2
    ensures ds[0] == Mail(fromAddr, to, subject, body, net.reply(mails))
    ensures |ds| == 2 ==> ds[1] == Mail(fromAddr, to, subject, body, net.reply(mails + 1))
    ensures |ds| == 2 <==> net.reply(mails) == ServerDisconnected && net.connectOk(opens)
    ensures Delivers(net, opens, mails) <==> ds[|ds| - 1].reply == Accepted
  {
    var first := Mail(fromAddr, to, subject, body, net.reply(mails));
    if net.reply(mails) == ServerDisconnected && net.connectOk(opens) then
      [first, Mail(fromAddr, to, subject, body, net.reply(mails + 1))]
    else [first]
  }

  /**
   * On a live session, `send_email` makes exactly the attempts the relay's
   * answers call for, uses up one reply cursor per attempt, and returns true
   * exactly when those answers deliver.
   */
  lemma SendEmailAttempts(s: Sender, w: World, to: string, subject: string, body: string)
    requires s.connected
    ensures var r := SendEmail(s, w, to, subject, body);
      && Deliveries(r.events) == Attempts(s.fromAddr, to, subject, body, w.net, w.opens, w.mails)
      && r.world.mails == w.mails + |Deliveries(r.events)|
      && r.world.opens == w.opens + (if w.net.reply(w.mails) == ServerDisconnected then 1 else 0)
      && (r.ok <==> Delivers(w.net, w.opens, w.mails))
  {
    var r := SendEmail(s, w, to, subject, body);
    var a := Attempts(s.fromAddr, to, subject, body, w.net, w.opens, w.mails);
    var e1 := Mail(s.fromAddr, to, subject, body, w.net.reply(w.mails));
    if w.net.reply(w.mails) != ServerDisconnected {
      AttemptsOnce(s, w, to, subject, body);
      assert a == [e1];
    } else if w.net.connectOk(w.opens) {
      AttemptsResent(s, w, to, subject, body);
      assert a == [e1, Mail(s.fromAddr, to, subject, body, w.net.reply(w.mails + 1))];
    } else {
      AttemptsUnreachable(s, w, to, subject, body);
      assert a == [e1];
    }
  }

  /** `SendEmailAttempts` when the relay answers the first `sendmail` with anything but a drop. */
  lemma AttemptsOnce(s: Sender, w: World, to: string, subject: string, body: string)
    requires s.connected && w.net.reply(w.mails) != ServerDisconnected
    ensures var r := SendEmail(s, w, to, subject, body);
      && Deliveries(r.events) == [Mail(s.fromAddr, to, subject, body, w.net.reply(w.mails))]
      && r.world.mails == w.mails + 1 && r.world.opens == w.opens
      && (r.ok <==> w.net.reply(w.mails) == Accepted)
  {
    ProjectionsSingle(Mail(s.fromAddr, to, subject, body, w.net.reply(w.mails)));
  }

  /** `SendEmailAttempts` when the relay drops the session and the reconnect works. */
  lemma AttemptsResent(s: Sender, w: World, to: string, subject: string, body: string)
    requires s.connected && w.net.reply(w.mails) == ServerDisconnected && w.net.connectOk(w.opens)
    ensures var r := SendEmail(s, w, to, subject, body);
      && Deliveries(r.events) == [Mail(s.fromAddr, to, subject, body, ServerDisconnected),
                                  Mail(s.fromAddr, to, subject, body, w.net.reply(w.mails + 1))]
      && r.world.mails == w.mails + 2 && r.world.opens == w.opens + 1
      && (r.ok <==> w.net.reply(w.mails + 1) == Accepted)
  {
    var e1 := Mail(s.fromAddr, to, subject, body, ServerDisconnected);
    var e2 := Mail(s.fromAddr, to, subject, body, w.net.reply(w.mails + 1));
    assert SendEmail(s, w, to, subject, body) ==
           Step(w.net.reply(w.mails + 1) == Accepted, s, w.(opens := w.opens + 1, mails := w.mails + 2), [e1, Open(true), e2]);
    DeliveriesOfResend(e1, e2);
  }

  /** The deliveries of a dropped send that was resent: the two `sendmail` calls around the reconnect. */
  lemma DeliveriesOfResend(e1: Event, e2: Event)
    requires e1.Mail? && e2.Mail?
    ensures Deliveries([e1, Open(true), e2]) == [e1, e2]
  {
    assert [e1, Open(true), e2] == [e1] + [Open(true)] + [e2];
    DeliveriesAppend([e1] + [Open(true)], [e2]);
    DeliveriesAppend([e1], [Open(true)]);
    ProjectionsSingle(e1);
    ProjectionsSingle(Open(true));
    ProjectionsSingle(e2);
  }

  /** `SendEmailAttempts` when the relay drops the session and the reconnect fails. */
  lemma AttemptsUnreachable(s: Sender, w: World, to: string, subject: string, body: string)
    requires s.connected && w.net.reply(w.mails) == ServerDisconnected && !w.net.connectOk(w.opens)
    ensures var r := SendEmail(s, w, to, subject, body);
      && Deliveries(r.events) == [Mail(s.fromAddr, to, subject, body, ServerDisconnected)]
      && r.world.mails == w.mails + 1 && r.world.opens == w.opens + 1 && !r.ok
  {
    var e1 := Mail(s.fromAddr, to, subject, body, ServerDisconnected);
    assert SendEmail(s, w, to, subject, body).events == [e1] + [Open(false)];
    DeliveriesAppend([e1], [Open(false)]);
    ProjectionsSingle(e1);
    ProjectionsSingle(Open(false));
  }

  /** The attempts of one send hold one accepted delivery when they deliver, and none otherwise. */
  lemma AttemptsAccepts(fromAddr: Option<string>, to: string, subject: string, body: string, net: Net, opens: nat, mails: nat)
    ensures Accepts(Attempts(fromAddr, to, subject, body, net, opens, mails)) == if Delivers(net, opens, mails) then 1 else 0
  {
    var a := Attempts(fromAddr, to, subject, body, net, opens, mails);
    TallySingle(a[0], Accepting);
    if |a| == 2 {
      assert a == [a[0]] + [a[1]];
      TallySingle(a[1], Accepting);
      TallyAppend([a[0]], [a[1]], Accepting);
    } else {
      assert a == [a[0]];
    }
  }

  /**
   * The attempts of one `send_email` call hand the message over once when
   * they deliver and never otherwise, and each got the relay's next answer.
   */
  lemma AttemptsTaken(fromAddr: Option<string>, to: string, subject: string, body: string, net: Net, opens: nat, mails: nat)
    ensures Taken(Attempts(fromAddr, to, subject, body, net, opens, mails)) ==
            if Delivers(net, opens, mails) then [Mail(fromAddr, to, subject, body, Accepted)] else []
    ensures Answered(Attempts(fromAddr, to, subject, body, net, opens, mails), net, mails)
  {
    var a := Attempts(fromAddr, to, subject, body, net, opens, mails);
    if |a| == 2 {
      assert a == [a[0]] + [a[1]];
      TakenAppend([a[0]], [a[1]]);
      assert [a[0]][1..] == [] && [a[1]][1..] == [];
    } else {
      assert a[1..] == [];
    }
  }

  /** A session that drops and cannot be reopened fails the send and leaves no session. */
  lemma DroppedAndUnreachable(s: Sender, w: World, to: string, subject: string, body: string)
    requires s.connected
    requires w.net.reply(w.mails) == ServerDisconnected
    requires !w.net.connectOk(w.opens)
    ensures var r := SendEmail(s, w, to, subject, body);
      !r.ok && !r.sender.connected && |Deliveries(r.events)| == 1
  {
    SendEmailRetryBound(s, w, to, subject, body);
  }

  /** A dropped session that reopens makes exactly one resend, whose answer is the result. */
  lemma DroppedAndReopened(s: Sender, w: World, to: string, subject: string, body: string)
    requires s.connected
    requires w.net.reply(w.mails) == ServerDisconnected
    requires w.net.connectOk(w.opens)
    ensures var r := SendEmail(s, w, to, subject, body);
      && r.events == [Mail(s.fromAddr, to, subject, body, ServerDisconnected), Open(true),
                      Mail(s.fromAddr, to, subject, body, w.net.reply(w.mails + 1))]
      && (r.ok <==> w.net.reply(w.mails + 1) == Accepted)
      && r.sender.connected
  {
  }
}
