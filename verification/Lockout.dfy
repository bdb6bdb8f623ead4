/** Login lockout (src/services/auth.service.ts, src/services/admin-user.service.ts): how many
    wrong passwords an account can have compared in a stretch of time. */
module Lockout {
  import opened Wrappers

  const MAX_FAILED_ATTEMPTS := 5
  const LOCKOUT_MS := 15 * 60 * 1000

  datatype Account = Account(isActive: bool, failedLoginAttempts: nat, lockedUntil: Option<int>)

  datatype LoginOutcome = Suspended | Locked | WrongPassword | Correct

  predicate LockedAt(a: Account, now: int) {
    a.lockedUntil.Some? && now < a.lockedUntil.value
  }

  /** The answer to a login at `now`; only the last two outcomes compare the password. */
  function LoginResult(a: Account, now: int, passwordMatches: bool): LoginOutcome {
    if !a.isActive then Suspended
    else if LockedAt(a, now) then Locked
    else if passwordMatches then Correct
    else WrongPassword
  }

  /** The fifth failure locks the account from when it is saved, and starts the count afresh. */
  function Fail(a: Account, saved: int): Account {
    if a.failedLoginAttempts + 1 >= MAX_FAILED_ATTEMPTS
    then a.(failedLoginAttempts := 0, lockedUntil := Some(saved + LOCKOUT_MS))
    else a.(failedLoginAttempts := a.failedLoginAttempts + 1)
  }

  function Reset(a: Account): Account {
    a.(failedLoginAttempts := 0, lockedUntil := None)
  }

  /** `at` is when a request reads the account, `saved` when it writes it back. */
  datatype Event =
    | Login(at: int, saved: int, passwordMatches: bool)
    | Suspend(at: int)
    | Reactivate(at: int)

  function Done(e: Event): int {
    if e.Login? then e.saved else e.at
  }

  function After(a: Account, e: Event): Account {
    match e
    case Login(at, saved, matches) => (
      match LoginResult(a, at, matches)
      case WrongPassword => Fail(a, saved)
      case Correct => Reset(a)
      case _ => a)
    case Suspend(_) => a.(isActive := false)
    case Reactivate(_) => if a.isActive then a else Reset(a).(isActive := true)
  }

  function AfterAll(a: Account, es: seq<Event>): Account
    decreases |es|
  {
    if es == [] then a else AfterAll(After(a, es[0]), es[1..])
  }

  /** Requests are served one after another, on a clock that never runs backwards. */
  predicate InOrder(es: seq<Event>) {
    && (forall i | 0 <= i < |es| :: es[i].at <= Done(es[i]))
    && (forall i, j | 0 <= i < j < |es| :: Done(es[i]) <= es[j].at)
  }

  predicate Within(es: seq<Event>, from: int, to: int) {
    forall i | 0 <= i < |es| :: from <= es[i].at < to
  }

  predicate IsWrong(a: Account, e: Event) {
    e.Login? && LoginResult(a, e.at, e.passwordMatches).WrongPassword?
  }

  predicate IsCorrect(a: Account, e: Event) {
    e.Login? && LoginResult(a, e.at, e.passwordMatches).Correct?
  }

  predicate IsReactivation(a: Account, e: Event) {
    e.Reactivate? && !a.isActive
  }

  function WrongCount(a: Account, es: seq<Event>): nat
    decreases |es|
  {
    if es == [] then 0 else (if IsWrong(a, es[0]) then 1 else 0) + WrongCount(After(a, es[0]), es[1..])
  }

  function CorrectCount(a: Account, es: seq<Event>): nat
    decreases |es|
  {
    if es == [] then 0 else (if IsCorrect(a, es[0]) then 1 else 0) + CorrectCount(After(a, es[0]), es[1..])
  }

  function ReactivationCount(a: Account, es: seq<Event>): nat
    decreases |es|
  {
    if es == [] then 0
    else (if IsReactivation(a, es[0]) then 1 else 0) + ReactivationCount(After(a, es[0]), es[1..])
  }

  predicate Counting(a: Account) {
    a.failedLoginAttempts < MAX_FAILED_ATTEMPTS
  }

  /** The stored counter always stays below the limit. */
  lemma {:induction false} CounterStaysBelow(a: Account, es: seq<Event>)
    requires Counting(a)
    ensures Counting(AfterAll(a, es))
    decreases |es|
  {
    if es != [] {
      CounterStaysBelow(After(a, es[0]), es[1..]);
    }
  }

  /** Wrong passwords still possible before `end`: none while locked until then. */
  function Budget(a: Account, end: int): int {
    if a.lockedUntil.Some? && end <= a.lockedUntil.value then 0
    else MAX_FAILED_ATTEMPTS - a.failedLoginAttempts
  }

  /** In any window of the lockout's length: a wrong password uses up budget, a correct one
      restores at most four, a reactivation at most five. */
  lemma {:induction false} WindowBudget(a: Account, es: seq<Event>, from: int)
    requires Counting(a) && InOrder(es) && Within(es, from, from + LOCKOUT_MS)
    ensures WrongCount(a, es)
      <= Budget(a, from + LOCKOUT_MS) + 4 * CorrectCount(a, es) + 5 * ReactivationCount(a, es)
    decreases |es|
  {
    if es != [] {
      WindowBudget(After(a, es[0]), es[1..], from);
    }
  }

  /** Any 15-minute window without a correct password or a reactivation compares at most five
      wrong passwords; each correct one allows four more and each reactivation five. */
  lemma AtMostFivePerWindow(a: Account, es: seq<Event>, from: int)
    requires Counting(a) && InOrder(es) && Within(es, from, from + LOCKOUT_MS)
    ensures WrongCount(a, es) <= 5 + 4 * CorrectCount(a, es) + 5 * ReactivationCount(a, es)
  {
    WindowBudget(a, es, from);
  }

  lemma {:induction false} CountsSplit(a: Account, es: seq<Event>, fs: seq<Event>)
    ensures var b := AfterAll(a, es);
      && AfterAll(a, es + fs) == AfterAll(b, fs)
      && WrongCount(a, es + fs) == WrongCount(a, es) + WrongCount(b, fs)
      && CorrectCount(a, es + fs) == CorrectCount(a, es) + CorrectCount(b, fs)
      && ReactivationCount(a, es + fs) == ReactivationCount(a, es) + ReactivationCount(b, fs)
    decreases |es|
  {
    if es == [] {
      assert es + fs == fs;
    } else {
      assert (es + fs)[1..] == es[1..] + fs;
      CountsSplit(After(a, es[0]), es[1..], fs);
    }
  }

  /** The events before an instant come first. */
  lemma {:induction false} SplitAt(es: seq<Event>, t: int) returns (n: nat)
    requires InOrder(es)
    ensures n <= |es|
    ensures forall i | 0 <= i < n :: es[i].at < t
    ensures forall i | n <= i < |es| :: t <= es[i].at
    decreases |es|
  {
    if es == [] || t <= es[0].at {
      n := 0;
      forall i | 0 < i < |es| ensures es[0].at <= es[i].at {
        assert Done(es[0]) <= es[i].at;
      }
    } else {
      var m := SplitAt(es[1..], t);
      n := m + 1;
      forall i | 0 <= i < n ensures es[i].at < t {
        assert 0 < i ==> es[i] == es[1..][i - 1];
      }
      forall i | n <= i < |es| ensures t <= es[i].at {
        assert es[i] == es[1..][i - 1];
      }
    }
  }

  lemma FirstWithin(es: seq<Event>, from: int, to: int)
    requires Within(es, from, to) && es != []
    ensures from <= es[0].at < to
  {
  }

  /** Over any run, a span of `k` windows compares at most `5k` wrong passwords, and what correct
      passwords and reactivations add. */
  lemma {:induction false} AtMostFivePerWindowOverSpan(a: Account, es: seq<Event>, from: int, k: nat)
    requires Counting(a) && InOrder(es) && Within(es, from, from + k * LOCKOUT_MS)
    ensures WrongCount(a, es) <= 5 * k + 4 * CorrectCount(a, es) + 5 * ReactivationCount(a, es)
    decreases k
  {
    if k == 0 {
      if es != [] {
        FirstWithin(es, from, from);
        assert false;
      }
    } else {
      var n := SplitAt(es, from + LOCKOUT_MS);
      var first, rest := es[..n], es[n..];
      assert es == first + rest;
      assert InOrder(first) && InOrder(rest);
      CountsSplit(a, first, rest);
      CounterStaysBelow(a, first);
      AtMostFivePerWindow(a, first, from);
      assert from + k * LOCKOUT_MS == (from + LOCKOUT_MS) + (k - 1) * LOCKOUT_MS;
      AtMostFivePerWindowOverSpan(AfterAll(a, first), rest, from + LOCKOUT_MS, k - 1);
    }
  }

  /** The bound is reached: five wrong passwords in one window. */
  lemma FiveInOneWindow()
    ensures var e := Login(0, 0, false); var es := [e, e, e, e, e, e];
      && InOrder(es) && Within(es, 0, LOCKOUT_MS)
      && WrongCount(Account(true, 0, None), es) == 5
  {
    var e := Login(0, 0, false);
    var a := Account(true, 0, None);
    var a1 := After(a, e);
    var a2 := After(a1, e);
    var a3 := After(a2, e);
    var a4 := After(a3, e);
    var a5 := After(a4, e);
    assert WrongCount(a5, [e]) == 0;
    assert WrongCount(a4, [e, e]) == 1;
    assert WrongCount(a3, [e, e, e]) == 2;
    assert WrongCount(a2, [e, e, e, e]) == 3;
    assert WrongCount(a1, [e, e, e, e, e]) == 4;
  }

  // ----- What a login answers ---------------------------------------------------------------

  /** Suspended accounts first, then locked ones; only then is the password compared. */
  lemma LoginAnswers(a: Account, at: int, saved: int, matches: bool)
    ensures var r, a' := LoginResult(a, at, matches), After(a, Login(at, saved, matches));
      if !a.isActive then r == Suspended && a' == a
      else if a.lockedUntil.Some? && at < a.lockedUntil.value then r == Locked && a' == a
      else if matches then r == Correct && a' == Account(true, 0, None)
      else
        && r == WrongPassword && a'.isActive
        && if a.failedLoginAttempts < 4
           then a'.failedLoginAttempts == a.failedLoginAttempts + 1 && a'.lockedUntil == a.lockedUntil
           else a'.failedLoginAttempts == 0 && a'.lockedUntil == Some(saved + 900_000)
  {
  }

  predicate NoReactivation(es: seq<Event>) {
    forall i | 0 <= i < |es| :: !es[i].Reactivate?
  }

  /** The answer to event `i` of a run, if it is a login. */
  function AnswerAt(a: Account, es: seq<Event>, i: int): LoginOutcome
    requires 0 <= i < |es| && es[i].Login?
  {
    LoginResult(AfterAll(a, es[..i]), es[i].at, es[i].passwordMatches)
  }

  lemma {:induction false} Unchanged(a: Account, es: seq<Event>, i: nat)
    requires i <= |es| && forall k | 0 <= k < |es| :: After(a, es[k]) == a
    ensures AfterAll(a, es[..i]) == a
  {
    if 0 < i {
      assert es[..i][1..] == es[1..][..i - 1];
      Unchanged(a, es[1..], i - 1);
    }
  }

  lemma {:induction false} NothingCompared(a: Account, es: seq<Event>)
    requires forall k | 0 <= k < |es| :: After(a, es[k]) == a && !IsWrong(a, es[k]) && !IsCorrect(a, es[k])
    ensures WrongCount(a, es) == 0 && CorrectCount(a, es) == 0
    decreases |es|
  {
    if es != [] {
      NothingCompared(a, es[1..]);
    }
  }

  /** From a suspension to the next reactivation no password is compared, counter and lock stay as
      they were, and every login is told that the account is suspended. */
  lemma SuspendedUntilReactivated(a: Account, at: int, es: seq<Event>)
    requires NoReactivation(es)
    ensures var a' := After(a, Suspend(at));
      && a' == Account(false, a.failedLoginAttempts, a.lockedUntil)
      && WrongCount(a', es) == 0 && CorrectCount(a', es) == 0 && AfterAll(a', es) == a'
      && forall i | 0 <= i < |es| && es[i].Login? :: AnswerAt(a', es, i) == Suspended
  {
    var a' := After(a, Suspend(at));
    NothingCompared(a', es);
    forall i | 0 <= i <= |es| ensures AfterAll(a', es[..i]) == a' {
      Unchanged(a', es, i);
    }
    assert es[..|es|] == es;
  }

  /** A reactivation restores a suspended account with a clean record, and touches no other. */
  lemma ReactivationRestores(a: Account, at: int)
    ensures After(a, Reactivate(at)) == if a.isActive then a else Account(true, 0, None)
  {
  }

  predicate OnlyLogins(es: seq<Event>) {
    forall i | 0 <= i < |es| :: es[i].Login?
  }

  /** Until a lock runs out, every login of an active account is told so, the right password
      included, and changes nothing. */
  lemma LockedUntilItEnds(a: Account, es: seq<Event>)
    requires a.isActive && a.lockedUntil.Some? && OnlyLogins(es)
    requires forall i | 0 <= i < |es| :: es[i].at < a.lockedUntil.value
    ensures AfterAll(a, es) == a && WrongCount(a, es) == 0 && CorrectCount(a, es) == 0
    ensures forall i | 0 <= i < |es| :: AnswerAt(a, es, i) == Locked
  {
    NothingCompared(a, es);
    forall i | 0 <= i <= |es| ensures AfterAll(a, es[..i]) == a {
      Unchanged(a, es, i);
    }
    assert es[..|es|] == es;
  }

  lemma {:induction false} WrongInARow(a: Account, es: seq<Event>)
    requires a.isActive && a.lockedUntil.None? && a.failedLoginAttempts + |es| <= 4
    requires OnlyLogins(es) && forall i | 0 <= i < |es| :: !es[i].passwordMatches
    ensures AfterAll(a, es) == Account(true, a.failedLoginAttempts + |es|, None)
    decreases |es|
  {
    if es != [] {
      WrongInARow(After(a, es[0]), es[1..]);
    }
  }

  /** Five wrong passwords in a row lock a clean account for the quarter of an hour from the fifth's
      save: a login in that time is refused, and one after it is compared again. */
  lemma FiveInARowLock(es: seq<Event>, at: int, matches: bool)
    requires |es| == 5 && OnlyLogins(es) && forall i | 0 <= i < 5 :: !es[i].passwordMatches
    ensures var a := AfterAll(Account(true, 0, None), es);
      && a == Account(true, 0, Some(es[4].saved + 900_000))
      && (LoginResult(a, at, matches) == Locked <==> at < es[4].saved + 900_000)
  {
    var a0 := Account(true, 0, None);
    WrongInARow(a0, es[..4]);
    assert es == es[..4] + [es[4]];
    CountsSplit(a0, es[..4], [es[4]]);
    assert [es[4]][1..] == [];
    LoginAnswers(AfterAll(a0, es[..4]), es[4].at, es[4].saved, false);
  }

  /** The stored user, as far as logging in changes it. */
  class User {
    var isActive: bool
    var failedLoginAttempts: nat
    var lockedUntil: Option<int>

    function State(): Account
      reads this
    {
      Account(isActive, failedLoginAttempts, lockedUntil)
    }

    constructor ()
      ensures State() == Account(true, 0, None)
    {
      isActive, failedLoginAttempts, lockedUntil := true, 0, None;
    }

    method IncrementFailedAttempts(now: int)
      modifies this`failedLoginAttempts, this`lockedUntil
      ensures State() == Fail(old(State()), now)
    {
      failedLoginAttempts := failedLoginAttempts + 1;
      if failedLoginAttempts >= MAX_FAILED_ATTEMPTS {
        lockedUntil := Some(now + LOCKOUT_MS);
        failedLoginAttempts := 0;
      }
    }

    /** Writes only when there is something to reset. */
    method ResetFailedAttempts()
      modifies this`failedLoginAttempts, this`lockedUntil
      ensures State() == Reset(old(State()))
    {
      if failedLoginAttempts > 0 || lockedUntil.Some? {
        failedLoginAttempts := 0;
        lockedUntil := None;
      }
    }

    method TryLogin(at: int, saved: int, passwordMatches: bool) returns (r: LoginOutcome)
      requires Counting(State())
      modifies this
      ensures r == LoginResult(old(State()), at, passwordMatches)
      ensures State() == After(old(State()), Login(at, saved, passwordMatches)) && Counting(State())
    {
      if !isActive {
        return Suspended;
      }
      if lockedUntil.Some? && lockedUntil.value > at {
        return Locked;
      }
      if !passwordMatches {
        IncrementFailedAttempts(saved);
        return WrongPassword;
      }
      ResetFailedAttempts();
      return Correct;
    }
  }
}
