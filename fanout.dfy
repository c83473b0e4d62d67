/**
 * What a fan-out writes to the sockets, as functions of the registry snapshot.
 *
 * A send attempt is recorded with the user whose entry supplied the socket and with
 * whether it went through; a send to a closed socket raises. Two fan-out shapes occur:
 * `Attempts` tries every target whatever happens to earlier ones (the presence broadcast,
 * which swallows errors), and `ChannelSends` stops at the first send that raises (the
 * channel broadcast and the personal send, which let the error escape).
 */
module Fanout {
  import opened Types

  datatype Send = Send(to: UserId, sock: SockId, env: Envelope, ok: bool)

  /** The outcome a fan-out reports to its caller. */
  datatype Delivery = Completed | Raised(sock: SockId)

  /** One send to `u`'s registered socket; it fails exactly when that socket is closed. */
  function Attempt(u: UserId, conns: map<UserId, SockId>, closed: set<SockId>, env: Envelope): Send
    requires u in conns
  {
    Send(u, conns[u], env, conns[u] !in closed)
  }

  /** One attempt per user of `us`, in order, each made regardless of the others. */
  function Attempts(us: seq<UserId>, conns: map<UserId, SockId>, closed: set<SockId>, env: Envelope): seq<Send>
    requires forall u :: u in us ==> u in conns
  {
    if us == [] then [] else [Attempt(us[0], conns, closed, env)] + Attempts(us[1..], conns, closed, env)
  }

  /** The members of `ms` that hold a registry entry, in member-list order. */
  function Online(ms: seq<UserId>, conns: map<UserId, SockId>): seq<UserId> {
    if ms == [] then []
    else if ms[0] in conns then [ms[0]] + Online(ms[1..], conns)
    else Online(ms[1..], conns)
  }

  /**
   * Sends to the registered members of `ms` in order; an unregistered member is skipped,
   * and the first send that raises ends the fan-out.
   */
  function ChannelSends(ms: seq<UserId>, conns: map<UserId, SockId>, closed: set<SockId>, env: Envelope): seq<Send>
  {
    if ms == [] then []
    else if ms[0] !in conns then ChannelSends(ms[1..], conns, closed, env)
    else
      var s := Attempt(ms[0], conns, closed, env);
      if s.ok then [s] + ChannelSends(ms[1..], conns, closed, env) else [s]
  }

  predicate AllOk(sends: seq<Send>) {
    forall i :: 0 <= i < |sends| ==> sends[i].ok
  }

  /** A fan-out raises exactly when its last send failed. */
  function OutcomeOf(sends: seq<Send>): Delivery {
    if sends != [] && !sends[|sends| - 1].ok then Raised(sends[|sends| - 1].sock) else Completed
  }

  /** Number of sends addressed to `u`'s entry. */
  function CountTo(sends: seq<Send>, u: UserId): nat {
    if sends == [] then 0 else (if sends[0].to == u then 1 else 0) + CountTo(sends[1..], u)
  }

  // ---------------------------------------------------------------- Attempts

  lemma {:induction false} AttemptsSnoc(us: seq<UserId>, u: UserId, conns: map<UserId, SockId>, closed: set<SockId>, env: Envelope)
    requires forall v :: v in us ==> v in conns
    requires u in conns
    ensures Attempts(us + [u], conns, closed, env) == Attempts(us, conns, closed, env) + [Attempt(u, conns, closed, env)]
  {
    if us != [] {
      assert (us + [u])[1..] == us[1..] + [u];
      AttemptsSnoc(us[1..], u, conns, closed, env);
    }
  }

  /**
   * Isolate-and-continue: the i-th attempt goes to the i-th user's socket and succeeds
   * exactly when that socket is open, whatever happened to the attempts before it.
   */
  lemma {:induction false} AttemptsAt(us: seq<UserId>, conns: map<UserId, SockId>, closed: set<SockId>, env: Envelope, i: nat)
    requires forall u :: u in us ==> u in conns
    requires i < |us|
    ensures |Attempts(us, conns, closed, env)| == |us|
    ensures Attempts(us, conns, closed, env)[i] == Send(us[i], conns[us[i]], env, conns[us[i]] !in closed)
  {
    if i > 0 {
      AttemptsAt(us[1..], conns, closed, env, i - 1);
    } else if |us| > 1 {
      AttemptsAt(us[1..], conns, closed, env, 0);
    }
  }

  /** Every user of a duplicate-free list gets exactly one attempt, and nobody else gets any. */
  lemma {:induction false} AttemptsReachEachOnce(us: seq<UserId>, conns: map<UserId, SockId>, closed: set<SockId>, env: Envelope, u: UserId)
    requires forall v :: v in us ==> v in conns
    requires NoDup(us)
    ensures CountTo(Attempts(us, conns, closed, env), u) == if u in us then 1 else 0
  {
    if us != [] {
      assert NoDup(us[1..]) by {
        forall i, j | 0 <= i < j < |us[1..]| ensures us[1..][i] != us[1..][j] {
          assert us[1..][i] == us[i + 1] && us[1..][j] == us[j + 1];
        }
      }
      AttemptsReachEachOnce(us[1..], conns, closed, env, u);
      var a := Attempts(us, conns, closed, env);
      assert a[1..] == Attempts(us[1..], conns, closed, env);
      if us[0] == u {
        assert u !in us[1..] by {
          forall k | 0 <= k < |us[1..]| ensures us[1..][k] != u {
            assert us[1..][k] == us[k + 1];
          }
        }
      }
      assert u in us <==> u == us[0] || u in us[1..];
    }
  }

  // ---------------------------------------------------------------- Online members

  /** A member is online exactly when it is in the member list and registered. */
  lemma {:induction false} OnlineMembers(ms: seq<UserId>, conns: map<UserId, SockId>, x: UserId)
    ensures x in Online(ms, conns) <==> x in ms && x in conns
  {
    if ms != [] {
      OnlineMembers(ms[1..], conns, x);
      assert x in ms <==> x == ms[0] || x in ms[1..];
    }
  }

  /** A member listed once is reached at most once. */
  lemma {:induction false} OnlineCount(ms: seq<UserId>, conns: map<UserId, SockId>, x: UserId)
    ensures Count(Online(ms, conns), x) == if x in conns then Count(ms, x) else 0
  {
    if ms != [] {
      OnlineCount(ms[1..], conns, x);
    }
  }

  lemma {:induction false} OnlineNoDup(ms: seq<UserId>, conns: map<UserId, SockId>)
    requires NoDup(ms)
    ensures NoDup(Online(ms, conns))
  {
    if ms != [] {
      NoDupTail(ms);
      OnlineNoDup(ms[1..], conns);
      if ms[0] in conns {
        OnlineMembers(ms[1..], conns, ms[0]);
        NoDupCons(ms[0], Online(ms[1..], conns));
      }
    }
  }

  /** A user to whom no send is addressed is counted zero times. */
  lemma {:induction false} CountToAbsent(sends: seq<Send>, u: UserId)
    requires forall i :: 0 <= i < |sends| ==> sends[i].to != u
    ensures CountTo(sends, u) == 0
  {
    if sends != [] {
      assert sends[0].to != u;
      CountToAbsent(sends[1..], u);
    }
  }

  // ---------------------------------------------------------------- Channel fan-out

  /**
   * Fanning out over `p + t` is fanning out over `p` and then, if nothing in `p` raised,
   * over `t`: a failure ends the fan-out for the rest of the list.
   */
  lemma {:induction false} ChannelSendsAppend(p: seq<UserId>, t: seq<UserId>, conns: map<UserId, SockId>, closed: set<SockId>, env: Envelope)
    ensures ChannelSends(p + t, conns, closed, env)
         == if AllOk(ChannelSends(p, conns, closed, env))
            then ChannelSends(p, conns, closed, env) + ChannelSends(t, conns, closed, env)
            else ChannelSends(p, conns, closed, env)
  {
    if p == [] {
      assert p + t == t;
    } else {
      assert (p + t)[1..] == p[1..] + t;
      ChannelSendsAppend(p[1..], t, conns, closed, env);
      var cs := ChannelSends(p, conns, closed, env);
      var rest := ChannelSends(p[1..], conns, closed, env);
      if p[0] !in conns {
        assert cs == rest;
      } else if !Attempt(p[0], conns, closed, env).ok {
        assert cs == [Attempt(p[0], conns, closed, env)];
        assert !cs[0].ok;
      } else {
        assert cs == [cs[0]] + rest;
        assert AllOk(cs) <==> AllOk(rest) by {
          forall i | 0 <= i < |rest| ensures rest[i] == cs[i + 1] { }
          if AllOk(rest) {
            forall i | 0 <= i < |cs| ensures cs[i].ok { if i > 0 { assert cs[i] == rest[i - 1]; } }
          }
        }
      }
    }
  }

  /** One more member of the list, while nothing has raised yet. */
  lemma ChannelSendsStep(ms: seq<UserId>, i: nat, conns: map<UserId, SockId>, closed: set<SockId>, env: Envelope)
    requires i < |ms|
    requires AllOk(ChannelSends(ms[..i], conns, closed, env))
    ensures ChannelSends(ms[..i + 1], conns, closed, env)
         == ChannelSends(ms[..i], conns, closed, env) + (if ms[i] in conns then [Attempt(ms[i], conns, closed, env)] else [])
  {
    ChannelSendsAppend(ms[..i], [ms[i]], conns, closed, env);
    assert ms[..i + 1] == ms[..i] + [ms[i]];
    assert [ms[i]][1..] == [];
  }

  /** The first send that raises is the last one of the whole fan-out. */
  lemma ChannelSendsFailAt(ms: seq<UserId>, i: nat, conns: map<UserId, SockId>, closed: set<SockId>, env: Envelope)
    requires i < |ms| && ms[i] in conns && conns[ms[i]] in closed
    requires AllOk(ChannelSends(ms[..i], conns, closed, env))
    ensures ChannelSends(ms, conns, closed, env) == ChannelSends(ms[..i], conns, closed, env) + [Attempt(ms[i], conns, closed, env)]
    ensures OutcomeOf(ChannelSends(ms, conns, closed, env)) == Raised(conns[ms[i]])
  {
    ChannelSendsStep(ms, i, conns, closed, env);
    var failed := ChannelSends(ms[..i + 1], conns, closed, env);
    assert !failed[|failed| - 1].ok;
    ChannelSendsAppend(ms[..i + 1], ms[i + 1..], conns, closed, env);
    assert ms[..i + 1] + ms[i + 1..] == ms;
  }

  /**
   * The channel fan-out is the presence-style attempt list over the online members, cut
   * just after the first failure: a prefix of it, all successful but possibly the last,
   * and complete unless its last send failed.
   */
  lemma {:induction false} ChannelSendsStopAtFirstFailure(ms: seq<UserId>, conns: map<UserId, SockId>, closed: set<SockId>, env: Envelope)
    ensures forall u :: u in Online(ms, conns) ==> u in conns
    ensures var cs := ChannelSends(ms, conns, closed, env);
            var full := Attempts(Online(ms, conns), conns, closed, env);
            && |cs| <= |full|
            && cs == full[..|cs|]
            && (forall i :: 0 <= i < |cs| - 1 ==> cs[i].ok)
            && (|cs| == |full| || (cs != [] && !cs[|cs| - 1].ok))
  {
    forall u | u in Online(ms, conns) ensures u in conns { OnlineMembers(ms, conns, u); }
    if ms != [] {
      ChannelSendsStopAtFirstFailure(ms[1..], conns, closed, env);
      var rest := ChannelSends(ms[1..], conns, closed, env);
      var restFull := Attempts(Online(ms[1..], conns), conns, closed, env);
      if ms[0] in conns {
        var s := Attempt(ms[0], conns, closed, env);
        var full := Attempts(Online(ms, conns), conns, closed, env);
        assert Online(ms, conns) == [ms[0]] + Online(ms[1..], conns);
        assert full == [s] + restFull;
        if s.ok {
          assert ChannelSends(ms, conns, closed, env) == [s] + rest;
          assert ([s] + restFull)[..1 + |rest|] == [s] + restFull[..|rest|];
          if rest != [] {
            assert ([s] + rest)[|rest|] == rest[|rest| - 1];
          }
        } else {
          assert ChannelSends(ms, conns, closed, env) == [s];
        }
      }
    }
  }

  /** With every online member's socket open, each of them gets the envelope once, in order. */
  lemma {:induction false} ChannelSendsAllOpen(ms: seq<UserId>, conns: map<UserId, SockId>, closed: set<SockId>, env: Envelope)
    requires forall m :: m in ms && m in conns ==> conns[m] !in closed
    ensures forall u :: u in Online(ms, conns) ==> u in conns
    ensures ChannelSends(ms, conns, closed, env) == Attempts(Online(ms, conns), conns, closed, env)
    ensures AllOk(ChannelSends(ms, conns, closed, env))
  {
    forall u | u in Online(ms, conns) ensures u in conns { OnlineMembers(ms, conns, u); }
    if ms != [] {
      ChannelSendsAllOpen(ms[1..], conns, closed, env);
      if ms[0] in conns {
        assert Online(ms, conns) == [ms[0]] + Online(ms[1..], conns);
      }
    }
  }

  /**
   * "To no one else": every send of a channel fan-out goes to a member of the list that
   * is registered, through that member's current socket.
   */
  lemma {:induction false} ChannelSendsAudience(ms: seq<UserId>, conns: map<UserId, SockId>, closed: set<SockId>, env: Envelope, i: nat)
    requires i < |ChannelSends(ms, conns, closed, env)|
    ensures var s := ChannelSends(ms, conns, closed, env)[i];
            s.to in ms && s.to in conns && s.sock == conns[s.to] && s.env == env
  {
    if ms != [] {
      if ms[0] !in conns {
        ChannelSendsAudience(ms[1..], conns, closed, env, i);
      } else if i > 0 {
        ChannelSendsAudience(ms[1..], conns, closed, env, i - 1);
      }
    }
  }

  /** The fan-out raises exactly when some send in it failed. */
  lemma ChannelSendsOutcome(ms: seq<UserId>, conns: map<UserId, SockId>, closed: set<SockId>, env: Envelope)
    ensures var cs := ChannelSends(ms, conns, closed, env);
            OutcomeOf(cs) == Completed <==> AllOk(cs)
  {
  }

  // ---------------------------------------------------------------- Serialization as written

  /**
   * Whether `json.dumps` accepts a payload as the handlers build it. The presence payload
   * carries its timestamp as an ISO string and the reaction payload only strings and
   * lists, but a message payload is the message record's `dict()`, whose creation time
   * (and edit time) is a datetime object, which `json.dumps` refuses with a TypeError.
   * The rest of the model assumes the intended behaviour, where every payload serializes.
   */
  predicate JsonDumpsAccepts(env: Envelope) {
    env.UserStatus? || env.ReactionAdded?
  }

  /**
   * The sockets a send raises on as the code is written: the closed ones and, when the
   * payload cannot be serialized, every registered one, since the payload is serialized
   * per target just before the send.
   */
  function RaisingSockets(conns: map<UserId, SockId>, closed: set<SockId>, env: Envelope): (r: set<SockId>)
    ensures closed <= r
    ensures !JsonDumpsAccepts(env) ==> forall u :: u in conns ==> conns[u] in r
  {
    if JsonDumpsAccepts(env) then closed else closed + conns.Values
  }

  /** The channel and personal fan-out as written, serialization failures included. */
  function ChannelSendsAsWritten(ms: seq<UserId>, conns: map<UserId, SockId>, closed: set<SockId>, env: Envelope): seq<Send> {
    ChannelSends(ms, conns, RaisingSockets(conns, closed, env), env)
  }

  /** Presence and reaction payloads serialize, so for them the written code is the model. */
  lemma AsWrittenAgreesWhenSerializable(ms: seq<UserId>, conns: map<UserId, SockId>, closed: set<SockId>, env: Envelope)
    requires JsonDumpsAccepts(env)
    ensures ChannelSendsAsWritten(ms, conns, closed, env) == ChannelSends(ms, conns, closed, env)
  {
  }

  /**
   * As written, a `new_message` or `message_edited` push delivers nothing: it raises at
   * the first registered target, and only when no target is registered does it complete.
   */
  lemma {:induction false} AsWrittenMessagePushRaises(ms: seq<UserId>, conns: map<UserId, SockId>, closed: set<SockId>, env: Envelope)
    requires !JsonDumpsAccepts(env)
    ensures forall u :: u in Online(ms, conns) ==> u in conns
    ensures var cs := ChannelSendsAsWritten(ms, conns, closed, env);
            var online := Online(ms, conns);
            && (online == [] ==> cs == [] && OutcomeOf(cs) == Completed)
            && (online != [] ==> cs == [Send(online[0], conns[online[0]], env, false)]
                                 && OutcomeOf(cs) == Raised(conns[online[0]]))
  {
    forall u | u in Online(ms, conns) ensures u in conns { OnlineMembers(ms, conns, u); }
    if ms != [] {
      AsWrittenMessagePushRaises(ms[1..], conns, closed, env);
      if ms[0] in conns {
        assert conns[ms[0]] in RaisingSockets(conns, closed, env);
      }
    }
  }
}
