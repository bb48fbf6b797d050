/** The summary of one training: its type name, its duration and the three computed values. */
module Info {
  import opened Trainings

  /** The fields of an InfoMessage; its text rendering is not part of this model. */
  datatype InfoMessage = InfoMessage(
    trainingType: string,
    duration: real,
    distance: real,
    speed: real,
    calories: real)

  /** The class name the program reports for each kind of training. */
  function TypeName(t: Training): (name: string)
    ensures name == "Running" <==> t.Running?
    ensures name == "SportsWalking" <==> t.SportsWalking?
    ensures name == "Swimming" <==> t.Swimming?
  {
    match t
    case Running(_, _, _) => "Running"
    case SportsWalking(_, _, _, _) => "SportsWalking"
    case Swimming(_, _, _, _, _) => "Swimming"
  }

  /**
   * Training.show_training_info: the class name, the training's own duration
   * and the three values exactly as the getters compute them.
   */
  function ShowTrainingInfo(t: Training): (m: InfoMessage)
    requires Computable(t)
    ensures m.trainingType == TypeName(t)
    ensures m.duration == t.duration
    ensures m.distance == Distance(t) && m.speed == MeanSpeed(t) && m.calories == Calories(t)
  {
    InfoMessage(TypeName(t), t.duration, Distance(t), MeanSpeed(t), Calories(t))
  }

  /** The reported type name tells the kinds of training apart. */
  lemma TypeNameIdentifiesVariant(t: Training, u: Training)
    requires Computable(t) && Computable(u)
    ensures ShowTrainingInfo(t).trainingType == ShowTrainingInfo(u).trainingType
      <==> (t.Running? && u.Running?) || (t.SportsWalking? && u.SportsWalking?) || (t.Swimming? && u.Swimming?)
  {
  }
}
