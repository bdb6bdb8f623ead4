/** Refreshes of one login session that interleave (src/services/auth.service.ts): each reads its
    token, stores a new one and then revokes the one it read, with any other step in between. */
module RefreshRaces {
  import opened Sets

  /** How far a refresh in flight has come with the token it presented. */
  datatype Refresh = Reading(token: nat) | Issuing(token: nat)

  /** The session's unrevoked tokens, every token it ever had, and its refreshes in flight;
      `beside` counts the refreshes that began while another was in flight. */
  datatype State = State(live: set<nat>, issued: set<nat>, inFlight: map<nat, Refresh>, beside: nat)

  datatype Event =
    | Begin(r: nat, token: nat)
    | Issue(r: nat, token: nat)
    | Revoke(r: nat)
    | GiveUp(r: nat)
    | Delete(token: nat)

  function Start(token: nat): State {
    State({token}, {token}, map[], 0)
  }

  /** An event that is not enabled changes nothing. */
  function Step(s: State, e: Event): State {
    match e
    case Begin(r, token) =>
      if r in s.inFlight || token !in s.live then s
      else
        s.(inFlight := s.inFlight[r := Reading(token)],
           beside := if s.inFlight == map[] then s.beside else s.beside + 1)
    case Issue(r, token) =>
      if r !in s.inFlight || !s.inFlight[r].Reading? || token in s.issued then s
      else
        s.(live := s.live + {token}, issued := s.issued + {token},
           inFlight := s.inFlight[r := Issuing(s.inFlight[r].token)])
    case Revoke(r) =>
      if r !in s.inFlight || !s.inFlight[r].Issuing? then s
      else s.(live := s.live - {s.inFlight[r].token}, inFlight := s.inFlight - {r})
    case GiveUp(r) =>
      if r !in s.inFlight || !s.inFlight[r].Reading? then s else s.(inFlight := s.inFlight - {r})
    case Delete(token) => s.(live := s.live - {token})
  }

  function Run(s: State, es: seq<Event>): State
    decreases |es|
  {
    if es == [] then s else Run(Step(s, es[0]), es[1..])
  }

  function Readers(s: State): set<nat> {
    set r | r in s.inFlight && s.inFlight[r].Reading?
  }

  function Issuers(s: State): set<nat> {
    set r | r in s.inFlight && s.inFlight[r].Issuing?
  }

  /** The tokens that some of the requests presented. */
  function Presented(s: State, requests: set<nat>): set<nat>
    requires requests <= s.inFlight.Keys
  {
    set r | r in requests :: s.inFlight[r].token
  }

  /** Tokens that no refresh is about to revoke. */
  function Lasting(s: State): set<nat> {
    s.live - Presented(s, Issuers(s))
  }

  /** Lasting tokens that some refresh has read and will replace. */
  function Replaceable(s: State): set<nat> {
    Lasting(s) * Presented(s, Readers(s))
  }

  predicate Known(s: State) {
    s.live <= s.issued && forall r | r in s.inFlight :: s.inFlight[r].token in s.issued
  }

  /** Every read of a token that is not the first to replace it will leave one token too many:
      there are no more such reads and such tokens than refreshes begun beside another. */
  predicate Balanced(s: State) {
    |Lasting(s)| + |Readers(s)| <= 1 + s.beside + |Replaceable(s)|
  }

  lemma {:induction false} PresentedFew(s: State, requests: set<nat>)
    requires requests <= s.inFlight.Keys
    ensures |Presented(s, requests)| <= |requests|
    decreases |requests|
  {
    if requests != {} {
      var r :| r in requests;
      var rest := requests - {r};
      PresentedFew(s, rest);
      assert Presented(s, requests) == Presented(s, rest) + {s.inFlight[r].token};
    }
  }

  lemma BeginSets(s: State, r: nat, token: nat)
    requires r !in s.inFlight && token in s.live
    ensures var s' := Step(s, Begin(r, token));
      && Readers(s') == Readers(s) + {r} && Issuers(s') == Issuers(s)
      && Presented(s', Readers(s')) == Presented(s, Readers(s)) + {token}
      && Presented(s', Issuers(s')) == Presented(s, Issuers(s))
  {
  }

  lemma BeginBalanced(s: State, r: nat, token: nat)
    requires Balanced(s)
    ensures Balanced(Step(s, Begin(r, token)))
  {
    var s' := Step(s, Begin(r, token));
    if s' != s {
      BeginSets(s, r, token);
      if s.inFlight == map[] {
        BeginAlone(s, r, token);
      } else {
        Fewer(Replaceable(s), Replaceable(s'));
      }
    }
  }

  lemma BeginAlone(s: State, r: nat, token: nat)
    requires s.inFlight == map[] && token in s.live && Balanced(s)
    ensures Balanced(Step(s, Begin(r, token)))
  {
    BeginSets(s, r, token);
    assert Readers(s) == {} && Issuers(s) == {};
    assert Replaceable(s) == {} && Replaceable(Step(s, Begin(r, token))) == {token};
  }

  /** `r` reads a token, and no longer does. */
  lemma StopsReading(s: State, s': State, r: nat)
    requires r in Readers(s) && Readers(s') == Readers(s) - {r}
    requires forall q | q in Readers(s') :: s'.inFlight[q] == s.inFlight[q]
    ensures Presented(s', Readers(s')) <= Presented(s, Readers(s))
    ensures Presented(s, Readers(s)) - {s.inFlight[r].token} <= Presented(s', Readers(s'))
  {
    forall x | x in Presented(s, Readers(s)) && x != s.inFlight[r].token
      ensures x in Presented(s', Readers(s'))
    {
      var q :| q in Readers(s) && s.inFlight[q].token == x;
      assert q in Readers(s');
    }
  }

  lemma IssueSets(s: State, r: nat, token: nat)
    requires Known(s) && r in Readers(s) && token !in s.issued
    ensures var s', read := Step(s, Issue(r, token)), s.inFlight[r].token;
      && Readers(s') == Readers(s) - {r} && Issuers(s') == Issuers(s) + {r}
      && Presented(s', Issuers(s')) == Presented(s, Issuers(s)) + {read}
      && token !in Presented(s', Issuers(s')) && token !in Presented(s', Readers(s'))
  {
    var s' := Step(s, Issue(r, token));
    assert forall q | q in s.inFlight && q != r :: s'.inFlight[q] == s.inFlight[q];
  }

  lemma IssueLasting(s: State, r: nat, token: nat)
    requires Known(s) && r in Readers(s) && token !in s.issued
    ensures var s', read := Step(s, Issue(r, token)), s.inFlight[r].token;
      && Lasting(s') == Lasting(s) - {read} + {token} && token !in Lasting(s)
      && Replaceable(s') == Replaceable(s) - {read}
  {
    var s' := Step(s, Issue(r, token));
    IssueSets(s, r, token);
    StopsReading(s, s', r);
  }

  lemma IssueBalanced(s: State, r: nat, token: nat)
    requires Known(s) && Balanced(s)
    ensures Balanced(Step(s, Issue(r, token)))
  {
    if r in Readers(s) && token !in s.issued {
      var read := s.inFlight[r].token;
      IssueSets(s, r, token);
      IssueLasting(s, r, token);
      assert read in Presented(s, Readers(s));
      CountSwap(Lasting(s), Replaceable(s), read, token);
    }
  }

  /** Trading one element for a new one, and losing it where it counts against the balance. */
  lemma CountSwap(a: set<nat>, b: set<nat>, x: nat, y: nat)
    requires b <= a && y !in a && (x in a ==> x in b)
    ensures |a - {x} + {y}| - |b - {x}| == |a| - |b| + 1
  {
    if x in a {
      assert |a - {x}| == |a| - 1 && |b - {x}| == |b| - 1;
    } else {
      assert a - {x} == a && b - {x} == b;
    }
    assert |a - {x} + {y}| == |a - {x}| + 1;
  }

  lemma RevokeSets(s: State, r: nat)
    requires r in Issuers(s)
    ensures var s' := Step(s, Revoke(r));
      && Readers(s') == Readers(s) && Presented(s', Readers(s')) == Presented(s, Readers(s))
      && Lasting(s') == Lasting(s)
  {
    var s', token := Step(s, Revoke(r)), s.inFlight[r].token;
    assert Issuers(s') == Issuers(s) - {r};
    forall x | x in Presented(s, Issuers(s)) && x != token ensures x in Presented(s', Issuers(s')) {
      var q :| q in Issuers(s) && s.inFlight[q].token == x;
      assert q in Issuers(s') && s'.inFlight[q].token == x;
    }
    assert token in Presented(s, Issuers(s));
  }

  lemma RevokeBalanced(s: State, r: nat)
    requires Balanced(s)
    ensures Balanced(Step(s, Revoke(r)))
  {
    if r in Issuers(s) {
      RevokeSets(s, r);
    }
  }

  lemma GiveUpSets(s: State, r: nat)
    requires r in Readers(s)
    ensures var s' := Step(s, GiveUp(r));
      && Readers(s') == Readers(s) - {r} && Lasting(s') == Lasting(s)
      && Replaceable(s) - {s.inFlight[r].token} <= Replaceable(s')
  {
    var s' := Step(s, GiveUp(r));
    assert Readers(s') == Readers(s) - {r} && Issuers(s') == Issuers(s);
    assert Presented(s', Issuers(s')) == Presented(s, Issuers(s));
    StopsReading(s, s', r);
  }

  lemma GiveUpBalanced(s: State, r: nat)
    requires Balanced(s)
    ensures Balanced(Step(s, GiveUp(r)))
  {
    if r in Readers(s) {
      GiveUpSets(s, r);
      Fewer(Replaceable(s) - {s.inFlight[r].token}, Replaceable(Step(s, GiveUp(r))));
    }
  }

  lemma DeleteSets(s: State, token: nat)
    ensures var s' := Step(s, Delete(token));
      && Readers(s') == Readers(s)
      && Lasting(s') == Lasting(s) - {token} && Replaceable(s') == Replaceable(s) - {token}
  {
    var s' := Step(s, Delete(token));
    assert Readers(s') == Readers(s) && Presented(s', Readers(s')) == Presented(s, Readers(s));
    assert Issuers(s') == Issuers(s) && Presented(s', Issuers(s')) == Presented(s, Issuers(s));
  }

  lemma DeleteBalanced(s: State, token: nat)
    requires Balanced(s)
    ensures Balanced(Step(s, Delete(token)))
  {
    DeleteSets(s, token);
    assert token in Replaceable(s) ==> token in Lasting(s);
  }

  lemma StepKnown(s: State, e: Event)
    requires Known(s)
    ensures Known(Step(s, e))
  {
  }

  lemma {:induction false} RunBalanced(s: State, es: seq<Event>)
    requires Known(s) && Balanced(s)
    ensures Balanced(Run(s, es))
    decreases |es|
  {
    if es != [] {
      match es[0] {
        case Begin(r, token) => BeginBalanced(s, r, token);
        case Issue(r, token) => IssueBalanced(s, r, token);
        case Revoke(r) => RevokeBalanced(s, r);
        case GiveUp(r) => GiveUpBalanced(s, r);
        case Delete(token) => DeleteBalanced(s, token);
      }
      StepKnown(s, es[0]);
      RunBalanced(Step(s, es[0]), es[1..]);
    }
  }

  /** In every interleaving a session has at most one unrevoked token, one more for each refresh
      that ever began beside another, and one for each that has issued and is yet to revoke. */
  lemma LiveTokensBounded(token: nat, es: seq<Event>)
    ensures var s := Run(Start(token), es); |s.live| <= 1 + s.beside + |Issuers(s)|
  {
    StartBalanced(token);
    RunBalanced(Start(token), es);
    BalancedFew(Run(Start(token), es));
  }

  lemma StartBalanced(token: nat)
    ensures Known(Start(token)) && Balanced(Start(token))
  {
    var s0 := Start(token);
    assert Readers(s0) == {} && Issuers(s0) == {} && Lasting(s0) == {token};
  }

  lemma BalancedFew(s: State)
    requires Balanced(s)
    ensures |s.live| <= 1 + s.beside + |Issuers(s)|
  {
    var read, replaced := Presented(s, Readers(s)), Presented(s, Issuers(s));
    PresentedFew(s, Readers(s));
    PresentedFew(s, Issuers(s));
    Fewer(Replaceable(s), read);
    Fewer(s.live * replaced, replaced);
    assert s.live == Lasting(s) + s.live * replaced;
  }

  /** A refresh that nothing interrupts replaces the token it presented by a new one. */
  lemma AloneIsRotation(s: State, r: nat, token: nat, next: nat)
    requires Known(s) && s.inFlight == map[] && token in s.live && next !in s.issued
    ensures var s' := Step(Step(Step(s, Begin(r, token)), Issue(r, next)), Revoke(r));
      s' == s.(live := s.live - {token} + {next}, issued := s.issued + {next})
  {
  }

  /** A refresh given up leaves everything as it was. */
  lemma GivenUp(s: State, r: nat, token: nat)
    requires s.inFlight == map[] && token in s.live
    ensures Step(Step(s, Begin(r, token)), GiveUp(r)) == s
  {
  }

  lemma {:induction false} NotAgain(s: State, es: seq<Event>, token: nat)
    requires Known(s) && token in s.issued && token !in s.live
    ensures token !in Run(s, es).live
    decreases |es|
  {
    if es != [] {
      StepKnown(s, es[0]);
      NotAgain(Step(s, es[0]), es[1..], token);
    }
  }

  /** A token that was deleted is never unrevoked again, whatever is in flight. */
  lemma DeletedForGood(s: State, es: seq<Event>, token: nat)
    requires Known(s) && token in s.issued
    ensures token !in Run(Step(s, Delete(token)), es).live
  {
    StepKnown(s, Delete(token));
    NotAgain(Step(s, Delete(token)), es, token);
  }

  predicate OneTokenAtRest(s: State) {
    s.inFlight == map[] ==> |s.live| <= 1
  }

  /** Once nothing is in flight, a session has one unrevoked token at most in every interleaving
      with at most `n` refreshes begun beside another, exactly when `n` is zero. */
  lemma OneTokenAtRestIff(n: nat)
    ensures (forall token, es | Run(Start(token), es).beside <= n :: OneTokenAtRest(Run(Start(token), es)))
      <==> n == 0
  {
    if n == 0 {
      forall token, es | Run(Start(token), es).beside <= n ensures OneTokenAtRest(Run(Start(token), es)) {
        LiveTokensBounded(token, es);
        if Run(Start(token), es).inFlight == map[] {
          assert Issuers(Run(Start(token), es)) == {};
        }
      }
    } else {
      TwoRefreshes();
      assert !OneTokenAtRest(Run(Start(0), BothRefresh()));
    }
  }

  /** Two refreshes that both read token 0 before either revokes it. */
  function BothRefresh(): seq<Event> {
    [Begin(0, 0), Begin(1, 0), Issue(0, 1), Issue(1, 2), Revoke(0), Revoke(1)]
  }

  lemma TwoRefreshes()
    ensures Run(Start(0), BothRefresh()) == State({1, 2}, {0, 1, 2}, map[], 1)
    ensures |Run(Start(0), BothRefresh()).live| == 2
  {
    var es := BothRefresh();
    assert es[1..] == [Begin(1, 0), Issue(0, 1), Issue(1, 2), Revoke(0), Revoke(1)];
    assert es[1..][1..] == [Issue(0, 1), Issue(1, 2), Revoke(0), Revoke(1)];
    assert es[1..][1..][1..] == [Issue(1, 2), Revoke(0), Revoke(1)];
    assert es[1..][1..][1..][1..] == [Revoke(0), Revoke(1)];
    assert es[1..][1..][1..][1..][1..] == [Revoke(1)];
    assert es[1..][1..][1..][1..][1..][1..] == [];
  }
}
