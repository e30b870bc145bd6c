/**
 * The end of each epoch of train: print the validation perplexity; keep
 * the best validation loss and, when it improves, evaluate the test data,
 * save a checkpoint and print the test perplexity; otherwise count
 * non-improving epochs and, every lr_update_interval of them, multiply the
 * learning rate by lr_update_factor and start counting again.
 */
module LrSchedule {
  import opened Wrappers
  import opened PyFloat

  /** What evaluate returns after an epoch on the validation data and on the test data. */
  datatype Evaluation = Evaluation(valL: Float, testL: Float)

  /**
   * best_val, update_lr_epoch (None while unbound), the learning rate and
   * how many decays have been applied.
   */
  datatype Schedule = Schedule(bestVal: Float, counter: Option<int>, lr: real, decays: nat)

  /**
   * The exceptions the end of an epoch can raise: math.exp of the validation
   * loss, math.exp of the test loss (after that epoch's checkpoint has been
   * written), the unbound counter, and `% 0`.
   */
  datatype EpochError = ValPplOverflow | TestPplOverflow | UnboundCounter | ZeroInterval

  datatype EpochResult = EpochResult(next: Schedule, saved: bool)

  function Abs(x: int): nat
  {
    if x < 0 then -x else x
  }

  function Pow(f: real, n: nat): real
  {
    if n == 0 then 1.0 else Pow(f, n - 1) * f
  }

  /**
   * One end of epoch.  The validation perplexity is printed first, so an
   * overflowing validation loss raises before anything else; an improvement
   * saves the model and raises only if the test perplexity overflows;
   * otherwise the counter must be bound and the interval non-zero.  The
   * learning rate changes only by one decay, and the best loss only by an
   * improvement.
   */
  function EndOfEpoch(s: Schedule, ev: Evaluation, interval: int, factor: real): (r: Result<EpochResult, EpochError>)
    ensures r == Failure(ValPplOverflow) <==> ExpRaises(ev.valL)
    ensures r == Failure(TestPplOverflow) <==> !ExpRaises(ev.valL) && Less(ev.valL, s.bestVal) && ExpRaises(ev.testL)
    ensures r == Failure(UnboundCounter) <==> !ExpRaises(ev.valL) && !Less(ev.valL, s.bestVal) && s.counter.None?
    ensures r == Failure(ZeroInterval) <==>
              !ExpRaises(ev.valL) && !Less(ev.valL, s.bestVal) && s.counter.Some? && interval == 0
    ensures r.Success? ==> (r.value.saved <==> Less(ev.valL, s.bestVal))
    ensures r.Success? ==> r.value.next.counter.Some?
    ensures r.Success? && r.value.saved ==> r.value.next == Schedule(ev.valL, Some(0), s.lr, s.decays)
    ensures r.Success? && !r.value.saved ==> r.value.next.bestVal == s.bestVal
    ensures r.Success? ==>
              ((r.value.next.decays == s.decays && r.value.next.lr == s.lr) ||
               (r.value.next.decays == s.decays + 1 && r.value.next.lr == s.lr * factor && r.value.next.counter == Some(0)))
  {
    if ExpRaises(ev.valL) then
      Failure(ValPplOverflow)
    else if Less(ev.valL, s.bestVal) then
      if ExpRaises(ev.testL) then Failure(TestPplOverflow)
      else Success(EpochResult(Schedule(ev.valL, Some(0), s.lr, s.decays), true))
    else if s.counter.None? then
      Failure(UnboundCounter)
    else
      var c := s.counter.value + 1;
      if interval == 0 then Failure(ZeroInterval)
      else if c % interval == 0 && c != 0 then
        Success(EpochResult(Schedule(s.bestVal, Some(0), s.lr * factor, s.decays + 1), false))
      else
        Success(EpochResult(Schedule(s.bestVal, Some(c), s.lr, s.decays), false))
  }

  /** The schedule train starts from as written: no best loss yet, and the counter not yet bound. */
  function InitialAsWritten(lr0: real): (s: Schedule)
    ensures s.bestVal == Inf && s.counter.None?
  {
    Schedule(Inf, None, lr0, 0)
  }

  /** The corrected start: the counter is bound to 0 before the first epoch. */
  function Initial(lr0: real): (s: Schedule)
    ensures s.bestVal == Inf && s.counter == Some(0) && s.lr == lr0 && s.decays == 0
  {
    Schedule(Inf, Some(0), lr0, 0)
  }

  /**
   * A first epoch whose validation loss is NaN or infinite prints fine but
   * does not improve on infinity, and the as-written schedule then fails.
   */
  lemma FirstEpochUnbound(lr0: real, testL: Float, interval: int, factor: real)
    ensures EndOfEpoch(InitialAsWritten(lr0), Evaluation(NaN, testL), interval, factor) == Failure(UnboundCounter)
    ensures EndOfEpoch(InitialAsWritten(lr0), Evaluation(Inf, testL), interval, factor) == Failure(UnboundCounter)
  {
  }

  /** Neither perplexity the epoch prints overflows. */
  predicate NoOverflow(ev: Evaluation)
  {
    !ExpRaises(ev.valL) && !ExpRaises(ev.testL)
  }

  /** What the schedule keeps true: a bound counter below |interval|, a best that is not NaN, and lr == lr0 * factor^decays. */
  ghost predicate Valid(s: Schedule, interval: int, lr0: real, factor: real)
  {
    s.counter.Some? && 0 <= s.counter.value < Abs(interval) && s.bestVal != NaN && s.lr == lr0 * Pow(factor, s.decays)
  }

  lemma InitialValid(lr0: real, interval: int, factor: real)
    requires interval != 0
    ensures Valid(Initial(lr0), interval, lr0, factor)
  {
  }

  /** Among 1 .. |interval|, only |interval| itself is a multiple of interval. */
  lemma MultipleInRange(c: int, interval: int)
    requires interval != 0 && 1 <= c <= Abs(interval)
    ensures c % interval == 0 <==> c == Abs(interval)
  {
    var m := Abs(interval);
    if c < m {
      assert c % interval == c;
    } else {
      assert c == m;
      if interval > 0 {
        assert c % interval == 0;
      } else {
        assert c == -interval;
        assert c % interval == 0;
      }
    }
  }

  /**
   * From a valid schedule with a non-zero interval an epoch whose
   * perplexities do not overflow never fails and the schedule stays valid:
   * the counter stays in [0, |interval| - 1].
   */
  lemma EndOfEpochKeepsValid(s: Schedule, ev: Evaluation, interval: int, lr0: real, factor: real)
    requires interval != 0 && Valid(s, interval, lr0, factor) && NoOverflow(ev)
    ensures EndOfEpoch(s, ev, interval, factor).Success?
    ensures Valid(EndOfEpoch(s, ev, interval, factor).value.next, interval, lr0, factor)
  {
    if !Less(ev.valL, s.bestVal) {
      MultipleInRange(s.counter.value + 1, interval);
    }
  }

  /**
   * A non-improving epoch from counter c: the counter advances to c + 1,
   * unless that completes the interval, in which case the learning rate
   * decays once and the counter returns to 0.
   */
  lemma NonImprovingEpoch(s: Schedule, ev: Evaluation, interval: int, lr0: real, factor: real)
    requires interval != 0 && Valid(s, interval, lr0, factor) && !Less(ev.valL, s.bestVal) && !ExpRaises(ev.valL)
    ensures var r := EndOfEpoch(s, ev, interval, factor).value;
            !r.saved && r.next.bestVal == s.bestVal &&
            (if s.counter.value + 1 == Abs(interval)
             then r.next.counter == Some(0) && r.next.lr == s.lr * factor && r.next.decays == s.decays + 1
             else r.next.counter == Some(s.counter.value + 1) && r.next.lr == s.lr && r.next.decays == s.decays)
  {
    MultipleInRange(s.counter.value + 1, interval);
  }

  // ---------------------------------------------------------------------------
  // A run of epochs

  /** The schedule after a whole training run and the epochs at which a checkpoint was saved. */
  datatype RunResult = RunResult(last: Schedule, saves: seq<nat>)

  /** Epoch after epoch on what evaluate returns, stopping at the first exception. */
  function Run(s: Schedule, epochs: seq<Evaluation>, interval: int, factor: real): (r: Result<RunResult, EpochError>)
    ensures r.Success? ==> forall k :: 0 <= k < |r.value.saves| ==> r.value.saves[k] < |epochs|
    decreases |epochs|
  {
    if epochs == [] then Success(RunResult(s, []))
    else
      var n := |epochs| - 1;
      match Run(s, epochs[..n], interval, factor)
      case Failure(e) => Failure(e)
      case Success(before) =>
        match EndOfEpoch(before.last, epochs[n], interval, factor)
        case Failure(e) => Failure(e)
        case Success(step) => Success(RunResult(step.next, before.saves + (if step.saved then [n] else [])))
  }

  /**
   * The end of an epoch on the loop's mutable variables: the validation
   * perplexity is printed, then either the loss improves, the model is saved
   * and the test perplexity printed, or a non-improving epoch is counted and
   * the learning rate decays when the interval completes.  An exception is
   * returned in error.
   */
  method EpochUpdate(bestVal: Float, counter: int, lr: real, decays: nat, ev: Evaluation, interval: int, factor: real)
      returns (bestVal': Float, counter': int, lr': real, decays': nat, saved: bool, error: Option<EpochError>)
    ensures var step := EndOfEpoch(Schedule(bestVal, Some(counter), lr, decays), ev, interval, factor);
            (error.Some? ==> step == Failure(error.value)) &&
            (error.None? ==> step == Success(EpochResult(Schedule(bestVal', Some(counter'), lr', decays'), saved)))
  {
    bestVal', counter', lr', decays', saved, error := bestVal, counter, lr, decays, false, None;
    if ExpRaises(ev.valL) {
      error := Some(ValPplOverflow);
      return;
    }
    if Less(ev.valL, bestVal) {
      counter' := 0;
      bestVal' := ev.valL;
      saved := true;
      if ExpRaises(ev.testL) {
        error := Some(TestPplOverflow);
      }
    } else {
      counter' := counter + 1;
      if interval == 0 {
        error := Some(ZeroInterval);
        return;
      }
      if counter' % interval == 0 && counter' != 0 {
        lr' := lr * factor;
        decays' := decays + 1;
        counter' := 0;
        assert EndOfEpoch(Schedule(bestVal, Some(counter), lr, decays), ev, interval, factor).value.next.lr == lr';
      }
    }
  }

  /**
   * The training loop over epochs: epochs[e] is what evaluate returns on
   * the validation and the test data after epoch e.
   */
  method Train(lr0: real, epochs: seq<Evaluation>, interval: int, factor: real) returns (r: Result<RunResult, EpochError>)
    ensures r == Run(Initial(lr0), epochs, interval, factor)
  {
    var bestVal: Float := Inf;
    var counter := 0;
    var lr := lr0;
    var decays: nat := 0;
    var saves: seq<nat> := [];
    for epoch := 0 to |epochs|
      invariant Run(Initial(lr0), epochs[..epoch], interval, factor) == Success(RunResult(Schedule(bestVal, Some(counter), lr, decays), saves))
    {
      RunExtends(Initial(lr0), epochs, epoch, interval, factor);
      ghost var before := Schedule(bestVal, Some(counter), lr, decays);
      ghost var saves0 := saves;
      var saved, error;
      bestVal, counter, lr, decays, saved, error := EpochUpdate(bestVal, counter, lr, decays, epochs[epoch], interval, factor);
      if error.Some? {
        RunFailureStays(Initial(lr0), epochs, epoch + 1, interval, factor);
        return Failure(error.value);
      }
      assert EndOfEpoch(before, epochs[epoch], interval, factor) == Success(EpochResult(Schedule(bestVal, Some(counter), lr, decays), saved));
      if saved {
        saves := saves + [epoch];
      }
      assert saves == saves0 + (if saved then [epoch] else []);
    }
    assert epochs[..|epochs|] == epochs;
    r := Success(RunResult(Schedule(bestVal, Some(counter), lr, decays), saves));
  }

  /** Running one more epoch after a successful prefix of the run. */
  lemma RunExtends(s: Schedule, epochs: seq<Evaluation>, epoch: nat, interval: int, factor: real)
    requires epoch < |epochs| && Run(s, epochs[..epoch], interval, factor).Success?
    ensures var before := Run(s, epochs[..epoch], interval, factor).value;
            var step := EndOfEpoch(before.last, epochs[epoch], interval, factor);
            Run(s, epochs[..epoch + 1], interval, factor) ==
              if step.Failure? then Failure(step.error)
              else Success(RunResult(step.value.next, before.saves + (if step.value.saved then [epoch] else [])))
  {
    assert epochs[..epoch + 1][..epoch] == epochs[..epoch] && epochs[..epoch + 1][epoch] == epochs[epoch];
  }

  /** Once an epoch raises, the run stops with that exception whatever epochs come after. */
  lemma {:induction false} RunFailureStays(s: Schedule, epochs: seq<Evaluation>, k: nat, interval: int, factor: real)
    requires k <= |epochs| && Run(s, epochs[..k], interval, factor).Failure?
    ensures Run(s, epochs, interval, factor) == Run(s, epochs[..k], interval, factor)
    decreases |epochs|
  {
    if k < |epochs| {
      var n := |epochs| - 1;
      assert epochs[..n][..k] == epochs[..k];
      RunFailureStays(s, epochs[..n], k, interval, factor);
    } else {
      assert epochs[..k] == epochs;
    }
  }

  /**
   * From the corrected start and with a non-zero interval a run whose
   * perplexities never overflow never fails, and every schedule it reaches
   * is valid.
   */
  lemma {:induction false} RunKeepsValid(lr0: real, epochs: seq<Evaluation>, interval: int, factor: real)
    requires interval != 0
    requires forall e :: 0 <= e < |epochs| ==> NoOverflow(epochs[e])
    ensures Run(Initial(lr0), epochs, interval, factor).Success?
    ensures Valid(Run(Initial(lr0), epochs, interval, factor).value.last, interval, lr0, factor)
    decreases |epochs|
  {
    if epochs == [] {
      InitialValid(lr0, interval, factor);
    } else {
      var n := |epochs| - 1;
      forall e | 0 <= e < n
        ensures NoOverflow(epochs[..n][e])
      {
        assert epochs[..n][e] == epochs[e];
      }
      RunKeepsValid(lr0, epochs[..n], interval, factor);
      EndOfEpochKeepsValid(Run(Initial(lr0), epochs[..n], interval, factor).value.last, epochs[n], interval, lr0, factor);
    }
  }

  /** A loss that is not below the old best is not below a smaller new best either. */
  lemma NotLessStaysNotLess(a: Float, oldBest: Float, newBest: Float)
    requires !Less(a, oldBest) && Less(newBest, oldBest)
    ensures !Less(a, newBest)
  {
  }

  /** best_val is the best validation loss seen: after a run, no validation loss is below it, nor is the starting best. */
  lemma {:induction false} RunBestIsMinimum(s: Schedule, epochs: seq<Evaluation>, interval: int, factor: real)
    requires Run(s, epochs, interval, factor).Success?
    ensures !Less(s.bestVal, Run(s, epochs, interval, factor).value.last.bestVal)
    ensures forall e :: 0 <= e < |epochs| ==> !Less(epochs[e].valL, Run(s, epochs, interval, factor).value.last.bestVal)
    decreases |epochs|
  {
    if epochs != [] {
      var n := |epochs| - 1;
      var prefix := epochs[..n];
      RunBestIsMinimum(s, prefix, interval, factor);
      var old_ := Run(s, prefix, interval, factor).value.last.bestVal;
      var new_ := Run(s, epochs, interval, factor).value.last.bestVal;
      if Less(epochs[n].valL, old_) {
        forall e | 0 <= e < n
          ensures !Less(epochs[e].valL, new_)
        {
          assert epochs[e] == prefix[e];
          NotLessStaysNotLess(epochs[e].valL, old_, new_);
        }
        NotLessStaysNotLess(s.bestVal, old_, new_);
      } else {
        forall e | 0 <= e < n
          ensures !Less(epochs[e].valL, new_)
        {
          assert epochs[e] == prefix[e];
        }
      }
    }
  }

  /**
   * Checkpoints are saved exactly at the epochs that improved, so best_val
   * is the loss of the last epoch saved, or the starting best when none was.
   */
  lemma {:induction false} RunBestIsLastSaved(s: Schedule, epochs: seq<Evaluation>, interval: int, factor: real)
    requires Run(s, epochs, interval, factor).Success?
    ensures var r := Run(s, epochs, interval, factor).value;
            (r.saves == [] ==> r.last.bestVal == s.bestVal) &&
            (r.saves != [] ==> r.last.bestVal == epochs[r.saves[|r.saves| - 1]].valL)
    decreases |epochs|
  {
    if epochs != [] {
      var n := |epochs| - 1;
      var prefix := epochs[..n];
      RunBestIsLastSaved(s, prefix, interval, factor);
      var before := Run(s, prefix, interval, factor).value;
      if before.saves != [] {
        assert epochs[before.saves[|before.saves| - 1]] == prefix[before.saves[|before.saves| - 1]];
      }
    }
  }

  /**
   * After k consecutive epochs that do not improve on best_val, counted
   * from counter 0: fewer than |interval| of them leave the learning rate
   * alone with the counter at k; the |interval|-th decays it once and
   * resets the counter.
   */
  lemma {:induction false} DecayAfterInterval(s: Schedule, epochs: seq<Evaluation>, interval: int, lr0: real, factor: real)
    requires interval != 0 && Valid(s, interval, lr0, factor) && s.counter == Some(0)
    requires 1 <= |epochs| <= Abs(interval)
    requires forall e :: 0 <= e < |epochs| ==> !Less(epochs[e].valL, s.bestVal) && !ExpRaises(epochs[e].valL)
    ensures Run(s, epochs, interval, factor).Success?
    ensures var r := Run(s, epochs, interval, factor).value;
            r.saves == [] && r.last.bestVal == s.bestVal &&
            (if |epochs| == Abs(interval)
             then r.last.counter == Some(0) && r.last.lr == s.lr * factor && r.last.decays == s.decays + 1
             else r.last.counter == Some(|epochs|) && r.last.lr == s.lr && r.last.decays == s.decays)
    decreases |epochs|
  {
    var n := |epochs| - 1;
    var prefix := epochs[..n];
    var before: Schedule := s;
    if n == 0 {
      assert Run(s, prefix, interval, factor) == Success(RunResult(s, []));
    } else {
      forall e | 0 <= e < |prefix|
        ensures !Less(prefix[e].valL, s.bestVal) && !ExpRaises(prefix[e].valL)
      {
        assert prefix[e] == epochs[e];
      }
      DecayAfterInterval(s, prefix, interval, lr0, factor);
      before := Run(s, prefix, interval, factor).value.last;
      assert before == Schedule(s.bestVal, Some(n), s.lr, s.decays);
    }
    assert Valid(before, interval, lr0, factor);
    NonImprovingEpoch(before, epochs[n], interval, lr0, factor);
  }
}
