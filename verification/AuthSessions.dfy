/** The service calls on refresh tokens. Every `Await` lets any other calls take any number of steps. */
module AuthSessions {
  import opened Outcomes
  import opened RefreshTokens

  datatype AuthError =
    | UnknownToken | ReuseDetected | TokenExpired | NotFound
    | NoPassword | WrongPassword | WeakPassword | SamePassword

  predicate Upper(c: char) { 'A' <= c <= 'Z' }
  predicate Lower(c: char) { 'a' <= c <= 'z' }
  predicate Digit(c: char) { '0' <= c <= '9' }

  predicate AcceptablePassword(p: string) {
    && 10 <= |p| <= 256
    && (exists c :: c in p && Upper(c)) && (exists c :: c in p && Lower(c)) && (exists c :: c in p && Digit(c))
  }

  /** Ten to 256 characters, with a capital, a small letter and a digit among them. */
  predicate Strong(p: string) {
    && |p| >= 10 && |p| <= 256
    && (exists i :: 0 <= i < |p| && 'A' <= p[i] <= 'Z') && (exists i :: 0 <= i < |p| && 'a' <= p[i] <= 'z')
    && (exists i :: 0 <= i < |p| && '0' <= p[i] <= '9')
  }

  lemma AcceptableIffStrong(p: string)
    ensures AcceptablePassword(p) <==> Strong(p)
  {
    if Strong(p) {
      var i :| 0 <= i < |p| && 'A' <= p[i] <= 'Z';
      var j :| 0 <= j < |p| && 'a' <= p[j] <= 'z';
      var k :| 0 <= k < |p| && '0' <= p[k] <= '9';
      assert p[i] in p && p[j] in p && p[k] in p;
    }
  }

  // ------------------------------------------------------- undisturbed results

  /** What a refresh does when no other call runs meanwhile. */
  function Refreshed(s: State, me: Call, known: set<(string, string)>, presented: Hash, now: int, until: int)
    : (State, Result<nat, AuthError>)
    requires Enabled(s, Step(me, Issue("", "", 0)))
    requires presented in s.tokens ==> s.tokens[presented].family in s.chains
  {
    if presented !in s.tokens then (s, Err(UnknownToken))
    else
      var t := s.tokens[presented];
      if t.revokedAt.Some? then (Apply(s, Step(me, RevokeFamily(t.family, now))), Err(ReuseDetected))
      else if t.expiresAt <= now then (Apply(s, Step(me, RevokeFamily(t.family, now))), Err(TokenExpired))
      else if (t.tenant, t.user) !in known then (s, Err(NotFound))
      else (Apply(s, Step(me, Rotate(presented, until, now))), Ok(me))
  }

  /** The tokens that match and were live are revoked now, and all others are as they were. */
  ghost predicate RevokedOnly(before: Tokens, after: Tokens, hit: Token -> bool, at: int) {
    && after.Keys == before.Keys
    && forall h :: h in before ==>
         after[h] == if hit(before[h]) && before[h].revokedAt == None then before[h].(revokedAt := Some(at))
                     else before[h]
  }

  class AuthService {
    var tokens: Tokens
    // Every member of a tenant has an account.
    var members: set<(string, string)>
    var passwords: map<string, Option<string>>

    ghost var chains: map<Family, seq<Hash>>
    ghost var trace: seq<Step>

    constructor ()
      ensures Valid() && trace == [] && S() == EMPTY
    {
      tokens, members, passwords, chains, trace := map[], {}, map[], map[], [];
    }

    ghost function S(): State
      reads this
    {
      State(tokens, chains)
    }

    /** The stored tokens are what the trace of legal steps made them. */
    ghost predicate Valid()
      reads this
    {
      && Legal(EMPTY, trace) && S() == Exec(EMPTY, trace)
      && forall m :: m in members ==> m.1 in passwords
    }

    lemma Known()
      requires Valid()
      ensures Inv(S())
    {
      EveryInterleavingKeepsInv(EMPTY, trace);
    }

    /** What every call keeps. */
    twostate predicate Forward()
      reads this
    {
      old(trace) <= trace && Onward(old(S()), S())
    }

    /** `me` took none of the steps since. */
    twostate predicate NothingBy(me: Call)
      reads this
    {
      && old(trace) <= trace
      && forall i :: |old(trace)| <= i < |trace| ==> trace[i].caller != me
    }

    // ------------------------------------------------------------ interference

    /** Other calls run. When the caller is `alone` there are none. */
    method Interfere(ghost me: Call, ghost alone: bool)
      requires Valid()
      modifies this
      ensures Valid() && NothingBy(me)
      ensures alone ==> S() == old(S()) && members == old(members) && passwords == old(passwords)
    {
    }

    method Await(ghost me: Call, ghost alone: bool)
      requires Valid()
      modifies this
      ensures Valid() && Forward() && NothingBy(me)
      ensures old(Unspent(S(), me)) ==> Unspent(S(), me)
      ensures alone ==> S() == old(S()) && members == old(members) && passwords == old(passwords)
    {
      ghost var before := trace;
      Known();
      Interfere(me, alone);
      assert before + trace[|before|..] == trace;
      ExecConcat(EMPTY, before, trace[|before|..]);
      DeadForever(Exec(EMPTY, before), trace[|before|..]);
      if Unspent(Exec(EMPTY, before), me) {
        OthersLeaveUnspent(me, Exec(EMPTY, before), trace[|before|..]);
      }
    }

    // --------------------------------------------------------- repository calls

    ghost method Took(step: Step)
      requires Legal(EMPTY, trace) && Enabled(Exec(EMPTY, trace), step)
      modifies this`trace
      ensures trace == old(trace) + [step]
      ensures Legal(EMPTY, trace) && Exec(EMPTY, trace) == Apply(old(Exec(EMPTY, trace)), step)
    {
      ExecSnoc(EMPTY, trace, step);
      trace := trace + [step];
    }

    method AddRefreshToken(me: Call, tenant: string, user: string, until: int)
      requires Valid() && Unspent(S(), me)
      modifies this`tokens, this`chains, this`trace
      ensures Valid() && Forward() && S() == Apply(old(S()), Step(me, Issue(tenant, user, until)))
    {
      Known();
      ghost var step := Step(me, Issue(tenant, user, until));
      StepIsOnward(S(), step);
      Took(step);
      tokens := tokens[HashOf(me) := Token(SessionOf(me), tenant, user, until, None, None)];
      chains := Exec(EMPTY, trace).chains;
    }

    /** Succeeds for one caller per token: the one that finds it live. */
    method RotateRefreshToken(current: Hash, me: Call, until: int, at: int) returns (rotated: bool)
      requires Valid() && Unspent(S(), me)
      modifies this`tokens, this`chains, this`trace
      ensures Valid() && Forward()
      ensures rotated <==> Live(old(tokens), current)
      ensures rotated ==> current in old(tokens) && old(tokens)[current].family in old(chains)
      ensures rotated ==> S() == Apply(old(S()), Step(me, Rotate(current, until, at)))
      ensures rotated ==> trace == old(trace) + [Step(me, Rotate(current, until, at))]
      ensures !rotated ==> S() == old(S()) && trace == old(trace)
    {
      Known();
      OnwardReflexive(S());
      if current !in tokens || tokens[current].revokedAt.Some? {
        return false;
      }
      ghost var step := Step(me, Rotate(current, until, at));
      StepIsOnward(S(), step);
      Took(step);
      var token := tokens[current];
      tokens := tokens[current := token.(revokedAt := Some(at), replacedBy := Some(HashOf(me)))];
      tokens := tokens[HashOf(me) := token.(expiresAt := until, revokedAt := None, replacedBy := None)];
      chains := Exec(EMPTY, trace).chains;
      rotated := true;
    }

    method RevokeMatching(hit: Token -> bool, at: int)
      modifies this`tokens
      ensures tokens == RevokeAll(old(tokens), hit, at)
    {
      var left := tokens.Keys;
      while left != {}
        invariant left <= tokens.Keys == old(tokens).Keys
        invariant forall h :: h in tokens ==>
                    tokens[h] == if h in left then old(tokens)[h] else RevokeAll(old(tokens), hit, at)[h]
      {
        var h :| h in left;
        if hit(tokens[h]) && tokens[h].revokedAt.None? {
          tokens := tokens[h := tokens[h].(revokedAt := Some(at))];
        }
        left := left - {h};
      }
      assert tokens == RevokeAll(old(tokens), hit, at);
    }

    method RevokeTokenFamily(ghost me: Call, family: Family, at: int)
      requires Valid()
      modifies this`tokens, this`trace
      ensures Valid() && Forward() && S() == Apply(old(S()), Step(me, RevokeFamily(family, at)))
      ensures family in chains ==> Dead(S(), family)
    {
      Known();
      ghost var step := Step(me, RevokeFamily(family, at));
      StepIsOnward(S(), step);
      Took(step);
      RevokeMatching(InFamily(family), at);
    }

    method RevokeUserTokens(ghost me: Call, user: string, at: int)
      requires Valid()
      modifies this`tokens, this`trace
      ensures Valid() && Forward() && S() == Apply(old(S()), Step(me, RevokeUser(user, at)))
      ensures forall f :: f in SessionsOf(user) ==> Dead(S(), f)
    {
      Known();
      ghost var step := Step(me, RevokeUser(user, at));
      StepIsOnward(S(), step);
      Took(step);
      RevokeMatching(OfUser(user), at);
      Known();
      forall f | f in SessionsOf(user) ensures Dead(S(), f) {
        var g :| g in tokens && tokens[g].user == user && tokens[g].family == f;
        forall h | h in tokens && tokens[h].family == f ensures !Live(tokens, h) {
          OneUserPerFamily(S(), g, h);
        }
      }
    }

    /** The families whose tokens belong to the user. */
    ghost function SessionsOf(user: string): set<Family>
      reads this
    {
      set h | h in tokens && tokens[h].user == user :: tokens[h].family
    }

    // ------------------------------------------------------------ service calls

    /** How every call ends a session: the session is over when it returns. */
    method EndSession(ghost me: Call, family: Family, now: int, ghost alone: bool)
      requires Valid()
      modifies this
      ensures Valid() && Forward()
      ensures family in old(chains) ==> Dead(S(), family)
      ensures alone ==> S() == Apply(old(S()), Step(me, RevokeFamily(family, now)))
    {
      Await(me, alone);
      RevokeTokenFamily(me, family, now);
    }

    /** Registration, login and OAuth all end here. */
    method IssueSession(me: Call, tenant: string, user: string, until: int) returns (secret: nat)
      requires Valid() && Unspent(S(), me)
      modifies this
      ensures Valid() && Forward() && secret == me
      ensures S() == Apply(old(S()), Step(me, Issue(tenant, user, until)))
      ensures HashOf(secret) !in old(tokens) && SessionOf(me) !in old(chains)
      ensures tokens == old(tokens)[HashOf(secret) := Token(SessionOf(me), tenant, user, until, None, None)]
    {
      AddRefreshToken(me, tenant, user, until);
      secret := me;
    }

    /** Exchange a secret for its successor. Presenting a secret that was already used, revoked or has expired,
        or losing the rotation to another presenter, ends the whole session. */
    method Refresh(me: Call, secret: nat, now: int, until: int, ghost alone: bool)
      returns (r: Result<nat, AuthError>)
      requires Valid() && Unspent(S(), me)
      modifies this
      ensures Valid() && Forward()
      ensures HashOf(secret) !in old(tokens) <==> r == Err(UnknownToken)
      ensures r.Ok? ==> r.value == me && HashOf(secret) in old(tokens)
      ensures r.Ok? ==> Step(me, Rotate(HashOf(secret), until, now)) in trace[|old(trace)|..]
      ensures r.Ok? ==> HashOf(secret) in tokens && tokens[HashOf(secret)].replacedBy == Some(HashOf(me))
      ensures r.Ok? ==> Live(tokens, HashOf(me))
                        && tokens[HashOf(me)] == Replacement(old(tokens), HashOf(secret), until)
      ensures HashOf(secret) in old(tokens) && r.Err? && r.error != NotFound ==>
                Dead(S(), old(tokens)[HashOf(secret)].family)
      ensures HashOf(secret) in old(tokens) && old(tokens)[HashOf(secret)].revokedAt.Some? ==> r == Err(ReuseDetected)
      ensures r == Err(TokenExpired) ==> HashOf(secret) in old(tokens) && old(tokens)[HashOf(secret)].expiresAt <= now
      ensures Live(old(tokens), HashOf(secret)) && old(tokens)[HashOf(secret)].expiresAt <= now ==>
                r == Err(TokenExpired)
      ensures r == Err(NotFound) || r == Err(UnknownToken) ==> NothingBy(me)
      ensures r.Ok? ==>
                var was := old(tokens)[HashOf(secret)];
                && was.revokedAt == None && was.expiresAt > now
                && tokens[HashOf(secret)] == was.(revokedAt := Some(now), replacedBy := Some(HashOf(me)))
                && tokens[HashOf(me)] == Token(was.family, was.tenant, was.user, until, None, None)
      ensures alone && Live(old(tokens), HashOf(secret)) && old(tokens)[HashOf(secret)].expiresAt > now ==>
                var was := old(tokens)[HashOf(secret)];
                r == if (was.tenant, was.user) in old(members) then Ok(me) else Err(NotFound)
      ensures alone ==> (S(), r) == old(RefreshedHere(me, HashOf(secret), now, until))
    {
      Known();
      OnwardReflexive(S());
      var presented := HashOf(secret);
      if presented !in tokens {
        return Err(UnknownToken);
      }
      var current := tokens[presented];
      if current.revokedAt.Some? {
        EndSession(me, current.family, now, alone);
        return Err(ReuseDetected);
      }
      if current.expiresAt <= now {
        EndSession(me, current.family, now, alone);
        return Err(TokenExpired);
      }
      Await(me, alone);
      if (current.tenant, current.user) !in members {
        return Err(NotFound);
      }
      r := RotateOrEnd(me, presented, now, until, alone);
    }

    ghost function RefreshedHere(me: Call, presented: Hash, now: int, until: int)
      : (State, Result<nat, AuthError>)
      requires Valid() && Unspent(S(), me)
      reads this
    {
      Known();
      Refreshed(S(), me, members, presented, now, until)
    }

    /** The last part of a refresh: rotate, or end the session when another presenter was first. */
    method RotateOrEnd(me: Call, presented: Hash, now: int, until: int, ghost alone: bool)
      returns (r: Result<nat, AuthError>)
      requires Valid() && Unspent(S(), me) && presented in tokens
      modifies this
      ensures Valid() && Forward()
      ensures presented in tokens
      ensures r.Ok? ==> r.value == me && Step(me, Rotate(presented, until, now)) in trace[|old(trace)|..]
      ensures r.Ok? ==> tokens[presented].replacedBy == Some(HashOf(me))
      ensures r.Ok? ==>
                && old(tokens)[presented].revokedAt == None && presented != HashOf(me)
                && tokens[presented] == old(tokens)[presented].(revokedAt := Some(now), replacedBy := Some(HashOf(me)))
      ensures r.Ok? ==> Live(tokens, HashOf(me)) && tokens[HashOf(me)] == Replacement(old(tokens), presented, until)
      ensures r.Err? ==> r.error == ReuseDetected && Dead(S(), old(tokens)[presented].family)
      ensures alone && Live(old(tokens), presented) ==>
                r == Ok(me) && old(tokens)[presented].family in old(chains)
                && S() == Apply(old(S()), Step(me, Rotate(presented, until, now)))
    {
      Known();
      var family := tokens[presented].family;
      Await(me, alone);
      var rotated := RotateRefreshToken(presented, me, until, now);
      if !rotated {
        EndSession(me, family, now, alone);
        return Err(ReuseDetected);
      }
      assert trace[|old(trace)|..][|trace| - 1 - |old(trace)|] == Step(me, Rotate(presented, until, now));
      r := Ok(me);
    }

    /** Ends the session the secret belongs to, whichever of its tokens is presented. */
    method Logout(ghost me: Call, secret: nat, now: int, ghost alone: bool)
      requires Valid()
      modifies this
      ensures Valid() && Forward()
      ensures HashOf(secret) in old(tokens) ==> Dead(S(), old(tokens)[HashOf(secret)].family)
      ensures HashOf(secret) !in old(tokens) ==> S() == old(S())
      ensures alone && HashOf(secret) in old(tokens) ==>
                && S() == Apply(old(S()), Step(me, RevokeFamily(old(tokens)[HashOf(secret)].family, now)))
                && var f := old(tokens)[HashOf(secret)].family;
                   RevokedOnly(old(tokens), tokens, (t: Token) => t.family == f, now)
    {
      Known();
      OnwardReflexive(S());
      if HashOf(secret) in tokens {
        var current := tokens[HashOf(secret)];
        EndSession(me, current.family, now, alone);
      }
    }

    /** A changed password ends every session the user had. */
    method ChangePassword(ghost me: Call, tenant: string, user: string, current: string, next: string, now: int,
                          ghost alone: bool)
      returns (error: Option<AuthError>)
      requires Valid()
      modifies this
      ensures Valid() && Forward()
      ensures error == None ==> AcceptablePassword(next) && next != current && (tenant, user) in old(members)
      ensures error == None ==> forall f :: f in old(SessionsOf(user)) ==> Dead(S(), f)
      ensures error.Some? ==> NothingBy(me)
      ensures error == Some(NotFound) <==> (tenant, user) !in old(members)
      ensures (tenant, user) in old(members) ==>
                var stored := old(passwords)[user];
                && (error == Some(NoPassword) <==> stored == None)
                && (error == Some(WrongPassword) <==> stored != None && stored != Some(current))
                && (error == Some(WeakPassword) <==> stored == Some(current) && !Strong(next))
                && (error == Some(SamePassword) <==> stored == Some(current) && Strong(next) && next == current)
                && (error == None <==> stored == Some(current) && Strong(next) && next != current)
      ensures alone && error == None ==> RevokedOnly(old(tokens), tokens, (t: Token) => t.user == user, now)
      ensures alone && error.Some? ==> S() == old(S()) && passwords == old(passwords)
      ensures alone && (tenant, user) in old(members) ==>
                (error == None <==>
                   old(passwords)[user] == Some(current) && AcceptablePassword(next) && next != current)
      ensures alone && error == None ==>
                S() == Apply(old(S()), Step(me, RevokeUser(user, now)))
                && passwords == old(passwords)[user := Some(next)]
    {
      OnwardReflexive(S());
      AcceptableIffStrong(next);
      if (tenant, user) !in members {
        return Some(NotFound);
      }
      var stored := passwords[user];
      if stored == None {
        return Some(NoPassword);
      }
      if stored != Some(current) {
        return Some(WrongPassword);
      }
      if !AcceptablePassword(next) {
        return Some(WeakPassword);
      }
      if current == next {
        return Some(SamePassword);
      }
      StorePassword(me, user, next, now, alone);
      error := None;
    }

    /** The new password is stored, and every session of the user ends. */
    method StorePassword(ghost me: Call, user: string, next: string, now: int, ghost alone: bool)
      requires Valid()
      modifies this
      ensures Valid() && Forward()
      ensures forall f :: f in old(SessionsOf(user)) ==> Dead(S(), f)
      ensures alone ==> S() == Apply(old(S()), Step(me, RevokeUser(user, now)))
                        && passwords == old(passwords)[user := Some(next)]
    {
      Await(me, alone);
      passwords := passwords[user := Some(next)];
      AwaitAndRevoke(me, user, now, alone);
    }

    method AwaitAndRevoke(ghost me: Call, user: string, now: int, ghost alone: bool)
      requires Valid()
      modifies this
      ensures Valid() && Forward()
      ensures forall f :: f in old(SessionsOf(user)) ==> Dead(S(), f)
      ensures alone ==> S() == Apply(old(S()), Step(me, RevokeUser(user, now))) && passwords == old(passwords)
    {
      Await(me, alone);
      RevokeUserTokens(me, user, now);
    }
  }
}
