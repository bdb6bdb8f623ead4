/** Logins to one account that interleave (src/services/auth.service.ts): each reads the stored
    counter, compares the password and saves the counter it read plus one. The stretch of time is
    shorter than a lockout and has no correct password and no reactivation in it. */
module LoginRaces {
  import opened Lockout

  /** `inFlight` has the counter each login read, and `current` are the logins that read it after the
      latest save. `wrong` counts comparisons, `saved` and `stale` the saves of current and of other
      logins, and `beside` the logins that began while another was in flight. */
  datatype State = State(
    count: nat,
    locked: bool,
    inFlight: map<nat, nat>,
    current: set<nat>,
    wrong: nat,
    saved: nat,
    stale: nat,
    beside: nat)

  datatype Event = Begin(r: nat) | Save(r: nat)

  function Start(count: nat, locked: bool): State {
    State(count, locked, map[], {}, 0, 0, 0, 0)
  }

  function BeginStep(s: State, r: nat): State {
    if r in s.inFlight || s.locked then s
    else
      s.(inFlight := s.inFlight[r := s.count], current := s.current + {r}, wrong := s.wrong + 1,
         beside := if s.inFlight == map[] then s.beside else s.beside + 1)
  }

  /** A login saves what it read plus one, whatever the counter has become meanwhile. */
  function SaveStep(s: State, r: nat): State {
    if r !in s.inFlight then s
    else
      var s' := s.(inFlight := s.inFlight - {r}, current := {},
                   saved := if r in s.current then s.saved + 1 else s.saved,
                   stale := if r in s.current then s.stale else s.stale + 1);
      if s.inFlight[r] + 1 >= MAX_FAILED_ATTEMPTS then s'.(locked := true, count := 0)
      else s'.(count := s.inFlight[r] + 1)
  }

  function Step(s: State, e: Event): State {
    match e
    case Begin(r) => BeginStep(s, r)
    case Save(r) => SaveStep(s, r)
  }

  function Run(s: State, es: seq<Event>): State
    decreases |es|
  {
    if es == [] then s else Run(Step(s, es[0]), es[1..])
  }

  predicate Reads(s: State) {
    && s.count < MAX_FAILED_ATTEMPTS
    && (forall r | r in s.inFlight :: s.inFlight[r] < MAX_FAILED_ATTEMPTS)
    && s.current <= s.inFlight.Keys
    && (forall r | r in s.current :: s.inFlight[r] == s.count)
    && (s.locked ==> s.current == {})
  }

  /** Logins in flight and stale saves are paid for by a login begun beside another each, but for
      one login in flight while none has saved since any of them read. */
  predicate Paid(s: State) {
    s.stale + |s.inFlight| <= s.beside + if s.inFlight != map[] && s.current == s.inFlight.Keys then 1 else 0
  }

  /** A current save uses up budget; a stale one gives back three at most. */
  predicate Budgeted(s: State) {
    && s.wrong == s.saved + s.stale + |s.inFlight|
    && s.saved + (if s.locked then 0 else MAX_FAILED_ATTEMPTS - s.count) <= MAX_FAILED_ATTEMPTS + 3 * s.stale
  }

  lemma BeginPaid(s: State, r: nat)
    requires Reads(s) && Paid(s)
    ensures Reads(BeginStep(s, r)) && Paid(BeginStep(s, r))
  {
    var s' := BeginStep(s, r);
    if s' != s {
      assert s'.inFlight.Keys == s.inFlight.Keys + {r};
      assert |s.inFlight| == |s.inFlight.Keys| && |s'.inFlight| == |s'.inFlight.Keys|;
      assert s.inFlight == map[] ==> s'.current == {r} == s'.inFlight.Keys;
    }
  }

  lemma SavePaid(s: State, r: nat)
    requires Reads(s) && Paid(s)
    ensures Reads(SaveStep(s, r)) && Paid(SaveStep(s, r))
  {
    var s' := SaveStep(s, r);
    if r in s.inFlight {
      assert s'.inFlight.Keys == s.inFlight.Keys - {r};
      assert |s.inFlight| == |s.inFlight.Keys| && |s'.inFlight| == |s'.inFlight.Keys|;
    }
  }

  lemma BeginBudgeted(s: State, r: nat)
    requires Budgeted(s)
    ensures Budgeted(BeginStep(s, r))
  {
    var s' := BeginStep(s, r);
    if s' != s {
      assert s'.inFlight.Keys == s.inFlight.Keys + {r};
      assert |s.inFlight| == |s.inFlight.Keys| && |s'.inFlight| == |s'.inFlight.Keys|;
    }
  }

  lemma SaveBudgeted(s: State, r: nat)
    requires Reads(s) && Budgeted(s)
    ensures Budgeted(SaveStep(s, r))
  {
    var s' := SaveStep(s, r);
    if r in s.inFlight {
      assert s'.inFlight.Keys == s.inFlight.Keys - {r};
      assert |s.inFlight| == |s.inFlight.Keys| && |s'.inFlight| == |s'.inFlight.Keys|;
      assert s.inFlight[r] < MAX_FAILED_ATTEMPTS;
      assert r in s.current ==> !s.locked && s.inFlight[r] == s.count;
    }
  }

  lemma {:induction false} RunBudgeted(s: State, es: seq<Event>)
    requires Reads(s) && Paid(s) && Budgeted(s)
    ensures var s' := Run(s, es); Reads(s') && Paid(s') && Budgeted(s')
    decreases |es|
  {
    if es != [] {
      match es[0] {
        case Begin(r) => {
          BeginPaid(s, r);
          BeginBudgeted(s, r);
        }
        case Save(r) => {
          SavePaid(s, r);
          SaveBudgeted(s, r);
        }
      }
      RunBudgeted(Step(s, es[0]), es[1..]);
    }
  }

  /** In every interleaving at most five wrong passwords are compared, and four more for each login
      that began beside another. */
  lemma WrongPasswordsBounded(count: nat, locked: bool, es: seq<Event>)
    requires count < MAX_FAILED_ATTEMPTS
    ensures var s := Run(Start(count, locked), es); s.wrong <= 5 + 4 * s.beside
  {
    RunBudgeted(Start(count, locked), es);
  }

  /** A login that nothing interrupts does to counter and lock what the login of `Lockout` does. */
  lemma AloneIsLogin(s: State, r: nat, a: Account, at: int, saved: int)
    requires s.inFlight == map[] && a.isActive && a.failedLoginAttempts == s.count
    requires at <= saved && (s.locked <==> LockedAt(a, at))
    ensures var s', a' := Step(Step(s, Begin(r)), Save(r)), After(a, Login(at, saved, false));
      && s'.inFlight == map[] && s'.count == a'.failedLoginAttempts
      && s'.wrong - s.wrong == (if IsWrong(a, Login(at, saved, false)) then 1 else 0)
      && (s'.locked <==> LockedAt(a', saved) || s.locked)
      && s'.beside == s.beside
  {
  }

  ghost predicate AtMostFive(s: State) {
    s.wrong <= 5
  }

  /** The bound of five holds in every interleaving with at most `n` logins begun beside another,
      exactly when `n` is zero. */
  lemma AtMostFiveIff(n: nat)
    ensures (forall count: nat, locked, es | count < MAX_FAILED_ATTEMPTS && Run(Start(count, locked), es).beside <= n ::
        AtMostFive(Run(Start(count, locked), es)))
      <==> n == 0
  {
    if n == 0 {
      forall count: nat, locked, es | count < MAX_FAILED_ATTEMPTS && Run(Start(count, locked), es).beside <= n
        ensures AtMostFive(Run(Start(count, locked), es))
      {
        WrongPasswordsBounded(count, locked, es);
      }
    } else {
      SixthComparison();
      assert !AtMostFive(Run(Start(0, false), SixLogins()));
    }
  }

  /** One login after another, so many times. */
  function InTurn(times: nat): seq<Event> {
    if times == 0 then [] else [Begin(0), Save(0)] + InTurn(times - 1)
  }

  /** Two logins read the same counter, so that the second save undoes nothing the first counted
      and counts nothing itself; four more follow in turn. */
  function SixLogins(): seq<Event> {
    [Begin(0), Begin(1), Save(0), Save(1)] + InTurn(4)
  }

  /** Below the limit, a login served alone compares and counts. */
  lemma TurnCounts(s: State, times: nat)
    requires s.inFlight == map[] && s.current == {} && !s.locked && s.count + times <= MAX_FAILED_ATTEMPTS
    ensures var s' := Run(s, InTurn(times)); s'.wrong == s.wrong + times && s'.beside == s.beside
    decreases times
  {
    if times != 0 {
      var es := InTurn(times);
      assert es[1..] == [Save(0)] + InTurn(times - 1);
      assert es[1..][1..] == InTurn(times - 1);
      var s1 := Step(s, Begin(0));
      var s2 := Step(s1, Save(0));
      assert s2.inFlight == map[];
      if 1 < times {
        TurnCounts(s2, times - 1);
      }
    }
  }

  lemma SecondSaveIsStale()
    ensures var s := Step(Step(Step(Step(Start(0, false), Begin(0)), Begin(1)), Save(0)), Save(1));
      && s.inFlight == map[] && s.current == {} && !s.locked
      && s.count == 1 && s.wrong == 2 && s.beside == 1
  {
  }

  lemma SixthComparison()
    ensures var s := Run(Start(0, false), SixLogins()); s.wrong == 6 && s.beside == 1
  {
    var es := SixLogins();
    assert es[1..] == [Begin(1), Save(0), Save(1)] + InTurn(4);
    assert es[1..][1..] == [Save(0), Save(1)] + InTurn(4);
    assert es[1..][1..][1..] == [Save(1)] + InTurn(4);
    assert es[1..][1..][1..][1..] == InTurn(4);
    SecondSaveIsStale();
    TurnCounts(Step(Step(Step(Step(Start(0, false), Begin(0)), Begin(1)), Save(0)), Save(1)), 4);
  }
}
