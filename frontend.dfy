/** The session rules of the interactive front end, with the prompting and
    the parsing of numbers left out: every rule is applied to a token or a
    value that has already been read. */
module Frontend {
  import opened Bodies
  import opened Results
  import opened Integrator
  import opened Gravity

  /** The commands of the menu loop. */
  datatype Command =
    | Invalid | Quit | Help | ListBodies | AddBody | DelBody
    | ClearBodies | SetDt | Run | ChangeName | SetSteps

  /** `input_command` after the token has been read: the long name and the
      short alias of each command, every other token is `Invalid`. */
  function InputCommand(token: string): (c: Command)
    ensures c != Invalid ==> token in Keywords(c)
    ensures c == Invalid ==> forall d: Command :: token !in Keywords(d)
  {
    if token == "quit" || token == "q" then Quit
    else if token == "help" || token == "?" then Help
    else if token == "list" || token == "ls" then ListBodies
    else if token == "add" || token == "a" then AddBody
    else if token == "del" || token == "d" then DelBody
    else if token == "del_all" then ClearBodies
    else if token == "set_dt" then SetDt
    else if token == "run" then Run
    else if token == "filename" then ChangeName
    else if token == "set_steps" then SetSteps
    else Invalid
  }

  /** The keywords a command is typed as, one set per command; no keyword
      belongs to two commands. */
  function Keywords(c: Command): set<string>
  {
    match c
    case Invalid => {}
    case Quit => {"quit", "q"}
    case Help => {"help", "?"}
    case ListBodies => {"list", "ls"}
    case AddBody => {"add", "a"}
    case DelBody => {"del", "d"}
    case ClearBodies => {"del_all"}
    case SetDt => {"set_dt"}
    case Run => {"run"}
    case ChangeName => {"filename"}
    case SetSteps => {"set_steps"}
  }

  /** A token selects a command exactly when it is one of that command's
      keywords, and it is `Invalid` exactly when it is nobody's keyword. */
  lemma InputCommandMatchesKeywords(token: string, c: Command)
    ensures c != Invalid ==> (InputCommand(token) == c <==> token in Keywords(c))
    ensures InputCommand(token) == Invalid <==>
      forall d: Command :: token !in Keywords(d)
  {
    if InputCommand(token) != Invalid {
      assert token in Keywords(InputCommand(token));
    }
  }

  /** `input_y_N` after the token has been read: yes only on an explicit
      answer starting with 'y' or 'Y', no by default. */
  predicate ConfirmDefaultNo(answer: string)
    ensures answer == "" ==> !ConfirmDefaultNo(answer)
    ensures ConfirmDefaultNo(answer) ==> ConfirmDefaultYes(answer)
  {
    |answer| > 0 && (answer[0] == 'y' || answer[0] == 'Y')
  }

  /** `input_Y_n` after the token has been read: no only on an explicit
      answer starting with 'n' or 'N', yes by default. */
  predicate ConfirmDefaultYes(answer: string)
    ensures answer == "" ==> ConfirmDefaultYes(answer)
    ensures !ConfirmDefaultYes(answer) ==> answer != "" && answer[0] in {'n', 'N'}
  {
    !(|answer| > 0 && (answer[0] == 'n' || answer[0] == 'N'))
  }

  /** Only the first character of an answer is looked at, an empty answer
      gives the default, and an answer accepted where no is the default is
      accepted where yes is the default too. */
  lemma AnswerRules(answer: string, other: string)
    ensures ConfirmDefaultNo("") == false && ConfirmDefaultYes("") == true
    ensures |answer| > 0 && |other| > 0 && answer[0] == other[0] ==>
      ConfirmDefaultNo(answer) == ConfirmDefaultNo(other) &&
      ConfirmDefaultYes(answer) == ConfirmDefaultYes(other)
    ensures ConfirmDefaultNo(answer) ==> ConfirmDefaultYes(answer)
    ensures ConfirmDefaultNo("yes") && ConfirmDefaultNo("Y") && !ConfirmDefaultNo("no")
    ensures !ConfirmDefaultYes("no") && !ConfirmDefaultYes("N") && ConfirmDefaultYes("yes")
  {
    assert "yes"[0] == 'y' && "Y"[0] == 'Y' && "no"[0] == 'n' && "N"[0] == 'N';
  }

  /** The SET_DT rule: a negative timestep becomes 0.01, any other value,
      zero included, is kept. */
  function ClampDt(value: real): (dt: real)
    ensures dt >= 0.0
    ensures value >= 0.0 ==> dt == value
    ensures value < 0.0 ==> dt == 0.01
  {
    if value < 0.0 then 0.01 else value
  }

  /** The SET_STEPS rule: any count below 1 becomes 1. */
  function ClampSteps(value: int): (steps: int)
    ensures steps >= 1
    ensures value >= 1 ==> steps == value
    ensures value < 1 ==> steps == 1
  {
    if value < 1 then 1 else value
  }

  /** Clamping twice is clamping once, and a clamp only changes a value the
      program would not accept. */
  lemma ClampsAreIdempotent(value: real, count: int)
    ensures ClampDt(ClampDt(value)) == ClampDt(value)
    ensures ClampSteps(ClampSteps(count)) == ClampSteps(count)
    ensures ClampDt(value) != value <==> value < 0.0
    ensures ClampSteps(count) != count <==> count < 1
  {
  }

  /** The DEL_BODY rule on an already-read index: an index outside
      `[0, |bodies|)` leaves the list as it was; a valid index removes that
      body and shifts the ones after it down by one. */
  function RemoveAt(bodies: seq<Body>, index: int): (r: seq<Body>)
    ensures !(0 <= index < |bodies|) ==> r == bodies
    ensures 0 <= index < |bodies| ==>
      |r| == |bodies| - 1 &&
      (forall k :: 0 <= k < index ==> r[k] == bodies[k]) &&
      (forall k :: index <= k < |r| ==> r[k] == bodies[k + 1])
  {
    if 0 <= index < |bodies| then bodies[..index] + bodies[index + 1..] else bodies
  }

  /** Removing a body loses exactly that body and no other. */
  lemma RemoveAtLosesOneBody(bodies: seq<Body>, index: int)
    requires 0 <= index < |bodies|
    ensures multiset(RemoveAt(bodies, index)) + multiset{bodies[index]} == multiset(bodies)
  {
    assert bodies == bodies[..index] + [bodies[index]] + bodies[index + 1..];
  }

  /** The state the menu loop keeps between commands. */
  class Session {
    var bodies: seq<Body>
    var dt: real
    var steps: int
    var fileName: string

    /** What the clamps keep true from the start on: a non-negative timestep
        and at least one step, so a run always has a step count `size_t` can
        hold unchanged. */
    ghost predicate Valid()
      reads this
    {
      dt >= 0.0 && steps >= 1
    }

    /** The start of `main`: no bodies, dt = 100, 100 steps, output.csv. */
    constructor ()
      ensures Valid()
      ensures bodies == [] && dt == 100.0 && steps == 100 && fileName == "output.csv"
    {
      bodies := [];
      dt := 100.0;
      steps := 100;
      fileName := "output.csv";
    }

    /** ADD_BODY: the body that was read goes at the end of the list. */
    method AddBody(body: Body)
      requires Valid()
      modifies this
      ensures Valid()
      ensures bodies == old(bodies) + [body]
      ensures dt == old(dt) && steps == old(steps) && fileName == old(fileName)
    {
      bodies := bodies + [body];
    }

    /** DEL_BODY with the index that was read; reports whether a body went.
        An empty list never gets as far as the prompt, which leaves it as the
        range check does. */
    method DeleteBody(index: int) returns (deleted: bool)
      requires Valid()
      modifies this
      ensures Valid()
      ensures deleted <==> 0 <= index < |old(bodies)|
      ensures bodies == RemoveAt(old(bodies), index)
      ensures dt == old(dt) && steps == old(steps) && fileName == old(fileName)
    {
      if |bodies| == 0 {
        return false;
      }
      if index < 0 || index >= |bodies| {
        return false;
      }
      bodies := bodies[..index] + bodies[index + 1..];
      deleted := true;
    }

    /** CLEAR_BODIES: the list is emptied only on a yes to a y/N question. */
    method ClearBodies(answer: string)
      requires Valid()
      modifies this
      ensures Valid()
      ensures bodies == if ConfirmDefaultNo(answer) then [] else old(bodies)
      ensures dt == old(dt) && steps == old(steps) && fileName == old(fileName)
    {
      if ConfirmDefaultNo(answer) {
        bodies := [];
      }
    }

    /** SET_DT with the value that was read. */
    method SetDt(value: real)
      requires Valid()
      modifies this
      ensures Valid()
      ensures dt == ClampDt(value)
      ensures bodies == old(bodies) && steps == old(steps) && fileName == old(fileName)
    {
      dt := value;
      if dt < 0.0 {
        dt := 0.01;
      }
    }

    /** SET_STEPS with the value that was read. */
    method SetSteps(value: int)
      requires Valid()
      modifies this
      ensures Valid()
      ensures steps == ClampSteps(value)
      ensures bodies == old(bodies) && dt == old(dt) && fileName == old(fileName)
    {
      steps := value;
      if steps < 1 {
        steps := 1;
      }
    }

    /** CHANGE_NAME with the token that was read. */
    method ChangeName(name: string)
      requires Valid()
      modifies this
      ensures Valid()
      ensures fileName == name
      ensures bodies == old(bodies) && dt == old(dt) && steps == old(steps)
    {
      fileName := name;
    }

    /** RUN after the y/N confirmation: nothing on a no; on a yes, an
        integrator built from the session's dt, steps and bodies with the
        gravitational rate function, and the history it produces, which the
        program then hands to the file writer. */
    method RunSimulation(answer: string, invCube: (Vector3, Vector3) -> real)
      returns (history: Option<seq<State>>)
      requires Valid()
      ensures history.None? <==> !ConfirmDefaultNo(answer)
      ensures history.Some? ==>
        history.value == History(bodies, dt, steps, GravityModel(invCube)) &&
        |history.value| == steps + 1 && history.value[0] == bodies
    {
      if !ConfirmDefaultNo(answer) {
        return None;
      }
      var euler := new ForwardEuler(dt, steps, bodies, GravityModel(invCube));
      var states := euler.Run();
      return Some(states);
    }
  }
}
