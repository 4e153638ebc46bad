/** The six character states and the names `CharacterFSM` registers them under. */
module States {
  datatype StateKind = Idle | StandardWalk | Run | Waving | Crouch | SneakWalk

  /** The registry `CharacterFSM._Init` builds: state name to state class. */
  function Registry(): map<string, StateKind> {
    map[
      "Idle" := Idle,
      "StandardWalk" := StandardWalk,
      "Run" := Run,
      "Waving" := Waving,
      "Crouch" := Crouch,
      "SneakWalk" := SneakWalk
    ]
  }

  /** The `Name` getter of each state class; each class is registered under its own name. */
  function Name(k: StateKind): (s: string)
    ensures s in Registry() && Registry()[s] == k
  {
    match k
    case Idle => "Idle"
    case StandardWalk => "StandardWalk"
    case Run => "Run"
    case Waving => "Waving"
    case Crouch => "Crouch"
    case SneakWalk => "SneakWalk"
  }
}
