/**
 * read_package: choosing the kind of training from its workout code and
 * building it from the tracker's positional values.
 */
module Packages {
  import opened Wrappers
  import opened Trainings

  /** The workout codes the dispatcher knows. */
  const TrainingCodes: seq<string> := ["SWM", "RUN", "WLK"]

  /**
   * Why no training was built: the code is unknown (the program prints an
   * error and returns nothing), or the number of values does not match the
   * code (unpacking the list fails).
   */
  datatype PackageError =
    | UnknownWorkoutType(workoutType: string)
    | WrongLength(expected: nat, actual: nat)

  /** The code a training is read from. */
  function Code(t: Training): (code: string)
    ensures code in TrainingCodes
  {
    match t
    case Swimming(_, _, _, _, _) => "SWM"
    case Running(_, _, _) => "RUN"
    case SportsWalking(_, _, _, _) => "WLK"
  }

  /** The positional values a training is read from, in constructor argument order. */
  function Fields(t: Training): (data: seq<real>)
    ensures |data| >= 3 && data[0] == t.action && data[1] == t.duration && data[2] == t.weight
  {
    match t
    case Swimming(action, duration, weight, lengthPool, countPool) =>
      [action, duration, weight, lengthPool, countPool]
    case Running(action, duration, weight) =>
      [action, duration, weight]
    case SportsWalking(action, duration, weight, height) =>
      [action, duration, weight, height]
  }

  /** The number of values each known code unpacks. */
  function Arity(workoutType: string): (n: nat)
    requires workoutType in TrainingCodes
  {
    if workoutType == "SWM" then 5 else if workoutType == "RUN" then 3 else 4
  }

  /**
   * A training is built exactly for a known code with the matching number of
   * values, and it is then the training those values and that code describe.
   */
  function ReadPackage(workoutType: string, data: seq<real>): (r: Result<Training, PackageError>)
    ensures r.Ok? <==> workoutType in TrainingCodes && |data| == Arity(workoutType)
    ensures r.Ok? ==> Code(r.value) == workoutType && Fields(r.value) == data
    ensures workoutType !in TrainingCodes ==> r == Err(UnknownWorkoutType(workoutType))
    ensures workoutType in TrainingCodes && |data| != Arity(workoutType) ==>
      r == Err(WrongLength(Arity(workoutType), |data|))
  {
    if workoutType in TrainingCodes then
      if workoutType == "SWM" then
        if |data| == 5 then Ok(Swimming(data[0], data[1], data[2], data[3], data[4]))
        else Err(WrongLength(5, |data|))
      else if workoutType == "RUN" then
        if |data| == 3 then Ok(Running(data[0], data[1], data[2]))
        else Err(WrongLength(3, |data|))
      else
        if |data| == 4 then Ok(SportsWalking(data[0], data[1], data[2], data[3]))
        else Err(WrongLength(4, |data|))
    else
      Err(UnknownWorkoutType(workoutType))
  }

  /** Every training is read back from its own code and values. */
  lemma ReadPackageRoundTrip(t: Training)
    ensures ReadPackage(Code(t), Fields(t)) == Ok(t)
  {
  }

  /** The code decides the kind of training. */
  lemma ReadPackageVariant(workoutType: string, data: seq<real>)
    requires ReadPackage(workoutType, data).Ok?
    ensures workoutType == "SWM" <==> ReadPackage(workoutType, data).value.Swimming?
    ensures workoutType == "RUN" <==> ReadPackage(workoutType, data).value.Running?
    ensures workoutType == "WLK" <==> ReadPackage(workoutType, data).value.SportsWalking?
  {
  }
}
