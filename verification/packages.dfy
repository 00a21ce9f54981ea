/**
 * Reading a sensor package: a three-letter workout code and a positional list
 * of numbers become a training record, or an explicit error where
 * homework.py fails at run time.
 */
module Packages {
  import opened Workouts

  datatype Option<+T> = None | Some(value: T)

  datatype Result<+T, +E> = Ok(value: T) | Err(error: E)

  /** Why a package does not yield a training. */
  datatype PackageError =
    | UnknownWorkoutType(code: string)
    | WrongParameterCount(code: string, expected: nat, given: nat)

  /** The number of positional parameters each known code's constructor takes. */
  function ParameterCount(code: string): (n: Option<nat>)
    ensures n.Some? <==> code in {"SWM", "RUN", "WLK"}
  {
    if code == "SWM" then Some(5)
    else if code == "RUN" then Some(3)
    else if code == "WLK" then Some(4)
    else None
  }

  /** The code that selects a record's kind: the lookup table read backwards. */
  function Code(t: Training): (code: string)
    ensures ParameterCount(code) == Some(|Fields(t)|)
  {
    match t
    case Running(_, _, _) => "RUN"
    case SportsWalking(_, _, _, _) => "WLK"
    case Swimming(_, _, _, _, _) => "SWM"
  }

  /** A record's fields in the order its constructor takes them. */
  function Fields(t: Training): (data: seq<real>)
    ensures |data| >= 3 && data[..3] == [t.action, t.duration, t.weight]
    ensures t.Running? ==> |data| == 3
    ensures t.SportsWalking? ==> data[3..] == [t.height]
    ensures t.Swimming? ==> data[3..] == [t.lengthPool, t.countPool]
  {
    match t
    case Running(action, duration, weight) => [action, duration, weight]
    case SportsWalking(action, duration, weight, height) => [action, duration, weight, height]
    case Swimming(action, duration, weight, lengthPool, countPool) =>
      [action, duration, weight, lengthPool, countPool]
  }

  /**
   * Looks the code up and calls the matching constructor on the data.  An
   * unknown code and a list of the wrong length are errors; a record is built
   * exactly when the code is known and the list has that constructor's length,
   * and then its code and positional fields are the package itself.
   */
  function ReadPackage(code: string, data: seq<real>): (r: Result<Training, PackageError>)
    ensures r.Ok? <==> ParameterCount(code) == Some(|data|)
    ensures r.Ok? ==> Code(r.value) == code && Fields(r.value) == data
    ensures ParameterCount(code).None? ==> r == Err(UnknownWorkoutType(code))
    ensures ParameterCount(code).Some? && !r.Ok? ==>
      r == Err(WrongParameterCount(code, ParameterCount(code).value, |data|))
  {
    match ParameterCount(code)
    case None => Err(UnknownWorkoutType(code))
    case Some(n) =>
      if |data| != n then Err(WrongParameterCount(code, n, |data|))
      else if code == "SWM" then Ok(Swimming(data[0], data[1], data[2], data[3], data[4]))
      else if code == "RUN" then Ok(Running(data[0], data[1], data[2]))
      else Ok(SportsWalking(data[0], data[1], data[2], data[3]))
  }

  /** Each known code's parameter count is the arity of a record of that kind. */
  lemma ParameterCountIsArity(code: string)
    ensures ParameterCount(code).Some? ==>
      exists t :: Code(t) == code && |Fields(t)| == ParameterCount(code).value
  {
    if ParameterCount(code).Some? {
      var t := ReadPackage(code, seq(ParameterCount(code).value, _ => 0.0)).value;
      assert Code(t) == code && |Fields(t)| == ParameterCount(code).value;
    }
  }

  /** Every record is read back from its own code and fields. */
  lemma ReadPackageOfRecord(t: Training)
    ensures ReadPackage(Code(t), Fields(t)) == Ok(t)
  {
  }

  /** A record's code and fields determine it: distinct records give distinct packages. */
  lemma PackageDeterminesRecord(a: Training, b: Training)
    requires Code(a) == Code(b) && Fields(a) == Fields(b)
    ensures a == b
  {
  }

  /** The stock swimming package. */
  lemma SwimmingSample()
    ensures var r := ReadPackage("SWM", [720.0, 1.0, 80.0, 25.0, 40.0]);
      r == Ok(Swimming(720.0, 1.0, 80.0, 25.0, 40.0)) &&
      ShowTrainingInfo(r.value) == InfoMessage("Swimming", 1.0, 0.9936, 1.0, 336.0)
  {
  }

  /** The stock running package. */
  lemma RunningSample()
    ensures var r := ReadPackage("RUN", [15000.0, 1.0, 75.0]);
      r == Ok(Running(15000.0, 1.0, 75.0)) &&
      ShowTrainingInfo(r.value) == InfoMessage("Running", 1.0, 9.75, 9.75, 699.75)
  {
  }

  /** The stock walking package: its squared speed is below the height, so the floored term is zero. */
  lemma WalkingSample()
    ensures var r := ReadPackage("WLK", [9000.0, 1.0, 75.0, 180.0]);
      r == Ok(SportsWalking(9000.0, 1.0, 75.0, 180.0)) &&
      ShowTrainingInfo(r.value) == InfoMessage("SportsWalking", 1.0, 5.85, 5.85, 157.5)
  {
  }

  /** A code outside the table is refused, whatever the data. */
  lemma UnknownCodeSample(data: seq<real>)
    ensures ReadPackage("XYZ", data) == Err(UnknownWorkoutType("XYZ"))
  {
  }
}
