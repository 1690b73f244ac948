/** Properties of the fitness calculator that relate several of its
    operations: closed forms of the calorie formulas, their signs, what each
    result does not depend on, and the dispatch table read backwards. */
module HomeworkProperties {
  import opened Wrappers
  import opened Homework

  /** The code under which the dispatch table stores each class. */
  function Code(k: Kind): string
  {
    match k
    case RunningKind => "RUN"
    case SportsWalkingKind => "WLK"
    case SwimmingKind => "SWM"
  }

  // ---------------------------------------------------------------------
  // Distance and speed

  /** A swimmer's speed and calories depend on the pool, not on the strokes;
      the distance, which uses the strokes, does change with them. */
  lemma SwimmingIgnoresStrokes(s1: real, s2: real, duration: real, weight: real, lengthPool: real, countPool: real)
    requires duration != 0.0
    ensures var t1, t2 := Swimming(s1, duration, weight, lengthPool, countPool),
                          Swimming(s2, duration, weight, lengthPool, countPool);
            && MeanSpeed(t1) == MeanSpeed(t2)
            && SpentCalories(t1) == SpentCalories(t2)
            && (s1 != s2 ==> Distance(t1) != Distance(t2))
  {
    var t1, t2 := Swimming(s1, duration, weight, lengthPool, countPool),
                  Swimming(s2, duration, weight, lengthPool, countPool);
    assert MeanSpeed(t1) == lengthPool * countPool / MetresInKm / duration == MeanSpeed(t2);
  }

  /** A walker's height enters the calories only: distance and speed ignore it. */
  lemma WalkingSpeedIgnoresHeight(action: real, duration: real, weight: real, h1: real, h2: real)
    requires duration != 0.0
    ensures var t1, t2 := SportsWalking(action, duration, weight, h1),
                          SportsWalking(action, duration, weight, h2);
            Distance(t1) == Distance(t2) && MeanSpeed(t1) == MeanSpeed(t2)
  {
  }

  // ---------------------------------------------------------------------
  // Calories

  /** Running: with the speed multiplied back out, calories are 18 kcal per
      km-and-kg plus 1.79 kcal per hour-and-kg, over a thousand, times 60. */
  lemma RunningCaloriesClosedForm(t: Training)
    requires t.Running? && t.duration != 0.0
    ensures SpentCalories(t)
            == (18.0 * Distance(t) + 1.79 * t.duration) * t.weight * MinutesInHour / MetresInKm
  {
    var v := BaseMeanSpeed(t);
    assert v * t.duration == Distance(t);
    calc {
      SpentCalories(t);
      (18.0 * v + 1.79) * t.weight / MetresInKm * (t.duration * MinutesInHour);
      (18.0 * (v * t.duration) + 1.79 * t.duration) * t.weight * MinutesInHour / MetresInKm;
    }
  }

  /** Swimming: calories are twice the weight times the pool distance in km
      plus 1.1 times the duration; no division remains. */
  lemma SwimmingCaloriesClosedForm(t: Training)
    requires t.Swimming? && t.duration != 0.0
    ensures SpentCalories(t)
            == 2.0 * t.weight * (t.lengthPool * t.countPool / MetresInKm + 1.1 * t.duration)
  {
    var v := MeanSpeed(t);
    assert v * t.duration * MetresInKm == t.lengthPool * t.countPool;
    calc {
      SpentCalories(t);
      (v + 1.1) * 2.0 * t.weight * t.duration;
      2.0 * t.weight * (v * t.duration + 1.1 * t.duration);
    }
  }

  /** Walking: calories never fall below the 0.035 kcal per kg and minute the
      formula charges for standing still, whatever the step count. */
  lemma WalkingCaloriesFloor(t: Training)
    requires t.SportsWalking? && t.duration > 0.0 && t.weight >= 0.0 && t.height > 0.0
    ensures SpentCalories(t) >= 0.035 * t.weight * TrainingTimeInMinutes(t)
  {
    var m := TrainingTimeInMinutes(t);
    var extra := Square(BaseMeanSpeed(t) * KmhToMps) / HeightInM(t) * 0.029 * t.weight;
    assert HeightInM(t) > 0.0;
    assert extra >= 0.0 by {
      var q := Square(BaseMeanSpeed(t) * KmhToMps) / HeightInM(t);
      assert q >= 0.0;
      NonNegativeProduct(q * 0.029, t.weight);
    }
    assert SpentCalories(t) == (0.035 * t.weight + extra) * m;
    NonNegativeProduct(extra, m);
  }

  lemma NonNegativeProduct(x: real, y: real)
    requires x >= 0.0 && y >= 0.0
    ensures x * y >= 0.0
  {
  }

  /** For the inputs a sensor can produce, no workout reports negative calories. */
  lemma CaloriesNonNegative(t: Training)
    requires Plausible(t)
    ensures SpentCalories(t) >= 0.0
  {
    match t
    case Running(_, _, _) =>
      RunningCaloriesClosedForm(t);
      NonNegativeProduct(18.0 * Distance(t) + 1.79 * t.duration, t.weight);
    case SportsWalking(_, _, _, _) =>
      WalkingCaloriesFloor(t);
      NonNegativeProduct(0.035 * t.weight, TrainingTimeInMinutes(t));
    case Swimming(_, _, _, _, _) =>
      SwimmingCaloriesClosedForm(t);
      NonNegativeProduct(t.lengthPool, t.countPool);
  }

  /** A swimmer with some weight always burns something, even with no lengths. */
  lemma SwimmingCaloriesPositive(t: Training)
    requires t.Swimming? && t.duration > 0.0 && t.weight > 0.0
    requires t.lengthPool >= 0.0 && t.countPool >= 0.0
    ensures SpentCalories(t) > 0.0
  {
    SwimmingCaloriesClosedForm(t);
    NonNegativeProduct(t.lengthPool, t.countPool);
  }

  /** The same workout done by someone of weight `weight`. */
  function Reweighed(t: Training, weight: real): (u: Training)
    ensures KindOf(u) == KindOf(t) && u.weight == weight
  {
    match t
    case Running(a, d, _) => Running(a, d, weight)
    case SportsWalking(a, d, _, h) => SportsWalking(a, d, weight, h)
    case Swimming(a, d, _, l, c) => Swimming(a, d, weight, l, c)
  }

  /** Every calorie formula is proportional to the weight. */
  lemma CaloriesScaleWithWeight(t: Training, k: real)
    requires CaloriesDefined(t)
    ensures SpentCalories(Reweighed(t, k * t.weight)) == k * SpentCalories(t)
  {
    var u := Reweighed(t, k * t.weight);
    match t
    case Running(a, d, w) =>
      RunningCaloriesClosedForm(t);
      RunningCaloriesClosedForm(u);
      assert (18.0 * Distance(u) + 1.79 * d) * (k * w) == k * ((18.0 * Distance(t) + 1.79 * d) * w);
    case SportsWalking(a, d, w, h) =>
      WalkingCaloriesScaleWithWeight(a, d, w, h, k);
    case Swimming(a, d, w, l, c) =>
      SwimmingCaloriesClosedForm(t);
      SwimmingCaloriesClosedForm(u);
  }

  /** The walking case of `CaloriesScaleWithWeight`. */
  lemma WalkingCaloriesScaleWithWeight(action: real, duration: real, weight: real, height: real, k: real)
    requires duration != 0.0 && height != 0.0
    ensures SpentCalories(SportsWalking(action, duration, k * weight, height))
            == k * SpentCalories(SportsWalking(action, duration, weight, height))
  {
    var t := SportsWalking(action, duration, weight, height);
    var u := SportsWalking(action, duration, k * weight, height);
    var q := Square(BaseMeanSpeed(t) * KmhToMps) / HeightInM(t);
    var m := TrainingTimeInMinutes(t);
    assert SpentCalories(t) == (0.035 * weight + q * 0.029 * weight) * m;
    assert SpentCalories(u) == (0.035 * (k * weight) + q * 0.029 * (k * weight)) * m;
    assert (0.035 * (k * weight) + q * 0.029 * (k * weight)) * m
        == k * ((0.035 * weight + q * 0.029 * weight) * m);
  }

  /** More steps in the same time never lower a runner's calories. */
  lemma RunningCaloriesMonotoneInSteps(s1: real, s2: real, duration: real, weight: real)
    requires duration != 0.0 && weight >= 0.0 && s1 <= s2
    ensures SpentCalories(Running(s1, duration, weight)) <= SpentCalories(Running(s2, duration, weight))
  {
    var t, u := Running(s1, duration, weight), Running(s2, duration, weight);
    RunningCaloriesClosedForm(t);
    RunningCaloriesClosedForm(u);
    assert Distance(t) <= Distance(u);
    NonNegativeProduct(18.0 * (Distance(u) - Distance(t)), weight);
  }

  // ---------------------------------------------------------------------
  // The report

  /** Class names are distinct, so a report names its class unambiguously. */
  lemma KindNameInjective(k1: Kind, k2: Kind)
    ensures KindName(k1) == KindName(k2) <==> k1 == k2
  {
  }

  /** The report of a package names the class its code selects and shows the
      second reading as the duration, untouched. */
  lemma ReportOfReadPackage(code: string, data: seq<real>, t: Training)
    requires ReadPackage(code, data) == Success(Some(t)) && CaloriesDefined(t)
    ensures ShowTrainingInfo(t).trainingType == KindName(TrainingByCode[code])
    ensures ShowTrainingInfo(t).duration == data[1]
  {
  }

  /** A swimming report need not satisfy speed = distance / duration: its
      distance counts strokes of 1.38 m, its speed counts pool lengths. */
  lemma SwimmingReportSpeedNotDistanceOverTime()
    ensures exists t: Training ::
              && t.Swimming? && Plausible(t)
              && ShowTrainingInfo(t).speed * ShowTrainingInfo(t).duration != ShowTrainingInfo(t).distance
  {
    var t := Swimming(720.0, 1.0, 80.0, 25.0, 40.0);
    assert ShowTrainingInfo(t).speed == 1.0 && ShowTrainingInfo(t).distance == 0.9936;
  }

  // ---------------------------------------------------------------------
  // The dispatch table

  /** The table knows exactly three codes, one per class. */
  lemma DispatchTable()
    ensures TrainingByCode.Keys == {"SWM", "RUN", "WLK"}
    ensures forall k: Kind :: Code(k) in TrainingByCode && TrainingByCode[Code(k)] == k
  {
  }

  /** A workout has only one list of constructor arguments. */
  lemma FieldsInjective(t1: Training, t2: Training)
    requires KindOf(t1) == KindOf(t2) && Fields(t1) == Fields(t2)
    ensures t1 == t2
  {
    match t1
    case Running(_, _, _) =>
    case SportsWalking(_, _, _, _) =>
      assert Fields(t1)[3] == t1.height && Fields(t2)[3] == t2.height;
    case Swimming(_, _, _, _, _) =>
      assert Fields(t1)[3] == t1.lengthPool && Fields(t2)[3] == t2.lengthPool;
      assert Fields(t1)[4] == t1.countPool && Fields(t2)[4] == t2.countPool;
  }

  /** Reading a workout's own code and constructor arguments gives it back. */
  lemma ReadPackageRoundTrip(t: Training)
    ensures ReadPackage(Code(KindOf(t)), Fields(t)) == Success(Some(t))
  {
    DispatchTable();
    var r := Construct(KindOf(t), Fields(t));
    FieldsInjective(r.value, t);
  }

  /** And conversely: whatever a package reads as is the workout of the code's
      class whose constructor arguments are exactly the readings. */
  lemma ReadPackageInverse(code: string, data: seq<real>, t: Training)
    requires ReadPackage(code, data) == Success(Some(t))
    ensures code == Code(KindOf(t)) && data == Fields(t)
  {
    DispatchTable();
  }

  /** The dispatch is total on the three codes: each yields a workout exactly
      when the readings have the right count, and never `None`. Every other
      code yields `None` and no error. */
  lemma ReadPackageOutcomes(code: string, data: seq<real>)
    ensures code in {"SWM", "RUN", "WLK"} ==>
              ReadPackage(code, data).Success?
              == (|data| == Arity(TrainingByCode[code]))
    ensures code in {"SWM", "RUN", "WLK"} && ReadPackage(code, data).Success? ==>
              ReadPackage(code, data).value.Some?
    ensures code !in {"SWM", "RUN", "WLK"} ==> ReadPackage(code, data) == Success(None)
  {
    DispatchTable();
  }

  /** Every workout of the model is what some package reads as. */
  lemma ReadPackageSurjective(t: Training)
    ensures exists code, data :: ReadPackage(code, data) == Success(Some(t))
  {
    ReadPackageRoundTrip(t);
  }

  /** The three packages the calculator ships with, and the reports they give. */
  lemma SamplePackages()
    ensures ReadPackage("SWM", [720.0, 1.0, 80.0, 25.0, 40.0])
            == Success(Some(Swimming(720.0, 1.0, 80.0, 25.0, 40.0)))
    ensures ShowTrainingInfo(Swimming(720.0, 1.0, 80.0, 25.0, 40.0))
            == InfoMessage("Swimming", 1.0, 0.9936, 1.0, 336.0)
    ensures ReadPackage("RUN", [15000.0, 1.0, 75.0]) == Success(Some(Running(15000.0, 1.0, 75.0)))
    ensures ShowTrainingInfo(Running(15000.0, 1.0, 75.0))
            == InfoMessage("Running", 1.0, 9.75, 9.75, 797.805)
    ensures ReadPackage("WLK", [9000.0, 1.0, 75.0, 180.0])
            == Success(Some(SportsWalking(9000.0, 1.0, 75.0, 180.0)))
    ensures ShowTrainingInfo(SportsWalking(9000.0, 1.0, 75.0, 180.0))
            == InfoMessage("SportsWalking", 1.0, 5.85, 5.85, 349.251747525)
  {
  }
}
