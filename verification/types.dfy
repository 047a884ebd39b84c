/** The records shared by the platform's pages: missions and their steps,
    users, teams and notifications, plus the Option and Result wrappers
    the operations use for "absent" and "failed". */
module Types {

  datatype Option<T> = None | Some(value: T)

  datatype Result<T> = Ok(value: T) | Err(message: string)

  /** The four states a mission can be in. */
  datatype MissionStatus = Available | InProgress | Locked | Completed

  /** The kinds of input a step can ask for. */
  datatype InputType =
    | TextInput | EmailInput | FileInput | IbanInput | BooleanInput | DateInput
    | NumberInput | LongTextInput | SelectInput | UrlInput

  /** One step of a mission; `id` is derived from the mission's id. */
  datatype MissionStep = MissionStep(
    id: string,
    title: string,
    description: string,
    requiredInputType: Option<InputType>,
    options: seq<string>,
    completed: bool)

  /** A mission of the catalogue. `minLevel` is `requirements?.minLevel`:
      None when the mission carries no requirement. `category` is the
      category's name. */
  datatype Mission = Mission(
    id: string,
    title: string,
    category: string,
    description: string,
    xpReward: int,
    status: MissionStatus,
    isPrio: bool,
    minLevel: Option<int>,
    steps: seq<MissionStep>)

  /** The ids of a mission's steps, in order. */
  function StepIds(steps: seq<MissionStep>): (r: seq<string>)
    ensures |r| == |steps| && forall i :: 0 <= i < |steps| ==> r[i] == steps[i].id
  {
    if steps == [] then [] else [steps[0].id] + StepIds(steps[1..])
  }

  /** No two missions of a sequence share an id. */
  ghost predicate IdsDistinct(s: seq<Mission>) {
    forall a, b :: 0 <= a < b < |s| ==> s[a].id != s[b].id
  }

  datatype UserStatus = Active | New | Restricted

  /** A member of the platform; `bio` is optional. */
  datatype User = User(
    id: string,
    firstName: string,
    lastName: string,
    email: string,
    level: int,
    xp: int,
    status: UserStatus,
    avatarUrl: string,
    specializations: seq<string>,
    bio: Option<string>,
    teamId: string)

  datatype Team = Team(id: string, name: string, members: seq<string>, score: int)

  /** A notification; `kind` is its type ('success', 'info', ...). */
  datatype Notification = Notification(
    id: string,
    title: string,
    message: string,
    kind: string,
    read: bool,
    timestamp: int)
}
