/** Running a command in a transaction, again and again while it meets a version conflict. */
module UnitOfWork {
  import opened Common

  function Pow2(n: nat): nat {
    if n == 0 then 1 else 2 * Pow2(n - 1)
  }

  datatype Setting = MaxAttempts(n: int) | BaseBackoff(d: int)

  datatype Executor = Executor(maxAttempts: int, baseBackoff: int)

  const DEFAULT_EXECUTOR := Executor(3, 5_000_000)

  /** The executor after the first `n` settings. It always tries at least once, whatever they are. */
  function Configured(settings: seq<Setting>, n: nat): (x: Executor)
    requires n <= |settings|
    ensures x.maxAttempts >= 1
  {
    if n == 0 then DEFAULT_EXECUTOR
    else
      var before := Configured(settings, n - 1);
      match settings[n - 1]
      case MaxAttempts(k) => before.(maxAttempts := if k < 1 then 1 else k)
      case BaseBackoff(d) => before.(baseBackoff := d)
  }

  method NewExecutor(settings: seq<Setting>) returns (x: Executor)
    ensures x == Configured(settings, |settings|)
  {
    x := DEFAULT_EXECUTOR;
    for i := 0 to |settings|
      invariant x == Configured(settings, i)
    {
      match settings[i]
      case MaxAttempts(n) => x := x.(maxAttempts := if n < 1 then 1 else n);
      case BaseBackoff(d) => x := x.(baseBackoff := d);
    }
  }

  /** The last setting of a kind decides, and settings of the other kind do not matter to it. */
  lemma {:induction false} LastSettingWins(settings: seq<Setting>, i: nat, n: nat)
    requires i < n <= |settings|
    requires forall j :: i < j < n ==> settings[j].MaxAttempts? != settings[i].MaxAttempts?
    ensures match settings[i]
      case MaxAttempts(k) => Configured(settings, n).maxAttempts == if k < 1 then 1 else k
      case BaseBackoff(d) => Configured(settings, n).baseBackoff == d
  {
    if i < n - 1 { LastSettingWins(settings, i, n - 1); }
  }

  /** What no setting speaks of is three attempts and five milliseconds. */
  lemma {:induction false} DefaultsStay(settings: seq<Setting>, n: nat)
    requires n <= |settings|
    ensures (forall j :: 0 <= j < n ==> !settings[j].MaxAttempts?) ==> Configured(settings, n).maxAttempts == 3
    ensures (forall j :: 0 <= j < n ==> !settings[j].BaseBackoff?) ==> Configured(settings, n).baseBackoff == 5_000_000
  {
    if n > 0 { DefaultsStay(settings, n - 1); }
  }

  /** How one transaction ended. Anything but `Committed` left nothing behind. */
  datatype Attempt = Committed | Conflicted | Failed(reason: string)

  datatype RunError = Exhausted | Fatal(reason: string) | ContextDone

  /** The pause before attempt `k + 2`: the base shifted left `k` places in 64 bits, and none at
      all when that came out negative. */
  function Pause(base: int, k: nat): nat {
    if base <= 0 then 0
    else if Wrap64(base * Pow2(k)) < 0 then 0
    else Wrap64(base * Pow2(k))
  }

  method SleepBackoff(base: int, attempt: nat, cancelled: Option<nat>) returns (done: bool, slept: nat)
    requires attempt >= 1
    ensures slept <= Pause(base, attempt - 1)
    ensures done ==> slept == Pause(base, attempt - 1)
    ensures !done <==> base > 0 && cancelled.Some? && cancelled.value < Pause(base, attempt - 1)
  {
    if base <= 0 {
      return true, 0;
    }
    var d := Pause(base, attempt - 1);
    if cancelled.Some? && cancelled.value < d {
      return false, cancelled.value;
    }
    return true, d;
  }

  function TotalPause(base: int, n: nat): nat {
    if n == 0 then 0 else TotalPause(base, n - 1) + Pause(base, n - 1)
  }

  lemma {:induction false} Pow2Positive(n: nat)
    ensures Pow2(n) >= 1
  {
    if n > 0 { Pow2Positive(n - 1); }
  }

  /** A pause is never longer than the doubled base, and is that long exactly if it does not wrap. */
  lemma PauseIsDoubled(base: int, k: nat)
    requires base > 0
    ensures Pause(base, k) <= base * Pow2(k)
    ensures Pause(base, k) == base * Pow2(k) <==> base * Pow2(k) < INT64_LIMIT
  {
    Pow2Positive(k);
    assert base * Pow2(k) >= 0;
    WrapFits(base * Pow2(k));
  }

  /** What is left of a pause in 64 bits; a negative rest is no pause. */
  lemma PauseWraps(base: int, k: nat)
    requires base > 0
    ensures var rest := base * Pow2(k) % 0x1_0000_0000_0000_0000;
      Pause(base, k) == if rest < 0x8000_0000_0000_0000 then rest else 0
  {
    hide Pow2;
    var n := base * Pow2(k);
    var turns := WrapTurns(n);
    var rest := n % 0x1_0000_0000_0000_0000;
    assert rest == Wrap64(n) || rest == Wrap64(n) + 0x1_0000_0000_0000_0000;
  }

  /** The pauses never add up to more than the geometric sum, and add up to it exactly if the last of
      them fits 64 bits. */
  lemma {:induction false} TotalPauseIsGeometric(base: int, n: nat)
    requires base > 0
    ensures TotalPause(base, n) <= base * (Pow2(n) - 1)
    ensures TotalPause(base, n) == base * (Pow2(n) - 1) <==> n == 0 || base * Pow2(n - 1) < INT64_LIMIT
  {
    hide Pause, Wrap64, Pow2;
    if n == 0 {
      NoDoubling(base);
    } else {
      TotalPauseIsGeometric(base, n - 1);
      PauseIsDoubled(base, n - 1);
      GeometricStep(base, n - 1);
      if n > 1 { GeometricStep(base, n - 2); }
    }
  }

  lemma NoDoubling(base: int)
    ensures base * (Pow2(0) - 1) == 0
  {
  }

  lemma GeometricStep(base: int, n: nat)
    requires base > 0
    ensures base * (Pow2(n + 1) - 1) == base * Pow2(n) + base * (Pow2(n) - 1)
    ensures base * Pow2(n) < base * Pow2(n + 1)
  {
    Pow2Positive(n);
    var p := Pow2(n);
    assert Pow2(n + 1) == p + p;
    assert base * (p + p) == base * p + base * p && base * p > 0;
  }

  lemma {:induction false} TotalPauseGrows(base: int, n: nat, m: nat)
    requires n <= m
    ensures TotalPause(base, n) <= TotalPause(base, m)
  {
    if n < m { TotalPauseGrows(base, n, m - 1); }
  }

  lemma WaitBound(x: Executor)
    ensures x.maxAttempts >= 1 && x.baseBackoff > 0 ==>
      TotalPause(x.baseBackoff, x.maxAttempts - 1) <= x.baseBackoff * (Pow2(x.maxAttempts - 1) - 1)
    ensures forall n: nat :: x.baseBackoff <= 0 ==> TotalPause(x.baseBackoff, n) == 0
  {
    if x.maxAttempts >= 1 && x.baseBackoff > 0 {
      TotalPauseIsGeometric(x.baseBackoff, x.maxAttempts - 1);
    }
    forall n: nat | x.baseBackoff <= 0 ensures TotalPause(x.baseBackoff, n) == 0 {
      NoPause(x.baseBackoff, n);
    }
  }

  lemma {:induction false} NoPause(base: int, n: nat)
    requires base <= 0
    ensures TotalPause(base, n) == 0
  {
    if n > 0 { NoPause(base, n - 1); }
  }

  /** The context ends during the pause after attempt `i + 1`. */
  predicate Interrupted(x: Executor, cancels: seq<Option<nat>>, i: nat)
    requires i < |cancels|
  {
    x.baseBackoff > 0 && cancels[i].Some? && cancels[i].value < Pause(x.baseBackoff, i)
  }

  /** The one way a sequence of attempts ends: every attempt but the last met a conflict and was
      waited out, and the last one says how. */
  ghost predicate Ends(x: Executor, script: seq<Attempt>, cancels: seq<Option<nat>>, attempts: nat,
                       err: Option<RunError>)
    requires |script| >= x.maxAttempts && |cancels| >= x.maxAttempts
  {
    && 1 <= attempts <= x.maxAttempts
    && (forall i :: 0 <= i < attempts - 1 ==> script[i].Conflicted? && !Interrupted(x, cancels, i))
    && match err
       case None => script[attempts - 1].Committed?
       case Some(Fatal(reason)) => script[attempts - 1] == Failed(reason)
       case Some(Exhausted) => script[attempts - 1].Conflicted? && attempts == x.maxAttempts
       case Some(ContextDone) =>
         script[attempts - 1].Conflicted? && attempts < x.maxAttempts && Interrupted(x, cancels, attempts - 1)
  }

  /** There is only one such way. */
  lemma EndsOnce(x: Executor, script: seq<Attempt>, cancels: seq<Option<nat>>,
                 attempts: nat, err: Option<RunError>, otherAttempts: nat, otherErr: Option<RunError>)
    requires |script| >= x.maxAttempts && |cancels| >= x.maxAttempts
    requires Ends(x, script, cancels, attempts, err) && Ends(x, script, cancels, otherAttempts, otherErr)
    ensures attempts == otherAttempts && err == otherErr
  {
  }

  /** Attempt `i + 1` is reached: every attempt before it met a conflict, and the pause after it was
      over before the context was. */
  predicate Reached(x: Executor, script: seq<Attempt>, cancels: seq<Option<nat>>, i: nat)
    requires |script| >= x.maxAttempts && |cancels| >= x.maxAttempts && i < x.maxAttempts
  {
    forall j :: 0 <= j < i ==>
      && script[j] == Conflicted
      && (x.baseBackoff <= 0 || cancels[j] == None || cancels[j].value >= Pause(x.baseBackoff, j))
  }

  /** An attempt that is reached and commits makes the run a success; one that is reached and fails
      for good ends it with its reason; and with conflicts alone every attempt is made. */
  lemma ReachedDecides(x: Executor, script: seq<Attempt>, cancels: seq<Option<nat>>, attempts: nat,
                       err: Option<RunError>, i: nat)
    requires |script| >= x.maxAttempts && |cancels| >= x.maxAttempts && i < x.maxAttempts
    requires Ends(x, script, cancels, attempts, err)
    ensures Reached(x, script, cancels, i) ==>
      && attempts >= i + 1
      && (script[i] == Committed ==> err == None && attempts == i + 1)
      && (script[i].Failed? ==> err == Some(Fatal(script[i].reason)) && attempts == i + 1)
      && (script[i] == Conflicted && i == x.maxAttempts - 1 ==> err == Some(Exhausted) && attempts == i + 1)
    ensures err == None ==> Reached(x, script, cancels, attempts - 1) && script[attempts - 1] == Committed
  {
    if Reached(x, script, cancels, i) {
      assert attempts <= i ==> script[attempts - 1] == Conflicted && !Interrupted(x, cancels, attempts - 1);
    }
  }

  /** Tries until an attempt commits, fails for good, or the attempts run out. `script` is how the
      transactions would end, `cancels` when the context would end during each pause. An executor
      that allows no attempt reports success without trying. */
  method Run(x: Executor, script: seq<Attempt>, cancels: seq<Option<nat>>)
    returns (err: Option<RunError>, attempts: nat, waited: nat)
    requires |script| >= x.maxAttempts && |cancels| >= x.maxAttempts
    ensures if x.maxAttempts < 1 then err == None && attempts == 0 && waited == 0
            else Ends(x, script, cancels, attempts, err)
    ensures x.maxAttempts >= 1 && err != Some(ContextDone) ==> waited == TotalPause(x.baseBackoff, attempts - 1)
    ensures x.maxAttempts >= 1 && x.baseBackoff > 0 ==> waited <= x.baseBackoff * (Pow2(x.maxAttempts - 1) - 1)
    ensures x.baseBackoff <= 0 ==> waited == 0
  {
    WaitBound(x);
    attempts, waited := 0, 0;
    var attempt := 1;
    var lastErr: Option<RunError> := None;
    while attempt <= x.maxAttempts
      invariant attempt >= 1 && attempts == attempt - 1
      invariant if x.maxAttempts < 1 then attempt == 1 else attempt <= x.maxAttempts
      invariant forall i :: 0 <= i < attempts ==> script[i].Conflicted? && !Interrupted(x, cancels, i)
      invariant attempts == 0 ==> lastErr == None
      invariant waited == TotalPause(x.baseBackoff, attempts)
      decreases x.maxAttempts - attempt
    {
      attempts := attempt;
      TotalPauseGrows(x.baseBackoff, attempt - 1, x.maxAttempts - 1);
      match script[attempt - 1] {
        case Committed => return None, attempts, waited;
        case Failed(reason) => return Some(Fatal(reason)), attempts, waited;
        case Conflicted => lastErr := Some(Exhausted);
      }
      if attempt == x.maxAttempts {
        break;
      }
      var done, slept := SleepBackoff(x.baseBackoff, attempt, cancels[attempt - 1]);
      waited := waited + slept;
      TotalPauseGrows(x.baseBackoff, attempt, x.maxAttempts - 1);
      if !done {
        return Some(ContextDone), attempts, waited;
      }
      attempt := attempt + 1;
    }
    return lastErr, attempts, waited;
  }
}
