/**
 * The team form: the default field values and the routing of a submission's
 * outcome to the error state, a toast, and a delayed navigation.
 */
module TeamForm {
  import opened Common

  datatype Team = Team(id: string, name: string, description: Option<string>)

  /** `team?.name || ""`. */
  function DefaultName(team: Option<Team>): (v: string)
    ensures team.None? ==> v == ""
    ensures team.Some? ==> v == team.value.name
  {
    if team.Some? then team.value.name else ""
  }

  /** `team?.description || ""`. */
  function DefaultDescription(team: Option<Team>): (v: string)
    ensures team.None? ==> v == ""
    ensures team.Some? ==> v == OrEmpty(team.value.description)
  {
    if team.Some? then OrEmpty(team.value.description) else ""
  }

  function Verb(isUpdate: bool): (w: string)
    ensures |w| == 7
  {
    if isUpdate then "updated" else "created"
  }

  /** The part of the success message after the name: the closing quote, the verb and "successfully". */
  function MessageTail(isUpdate: bool): (tail: string)
    ensures |tail| == 22
    ensures tail[2] == (if isUpdate then 'u' else 'c')
  {
    "\" " + Verb(isUpdate) + " successfully"
  }

  /** `Team "${name}" ${team ? 'updated' : 'created'} successfully`. */
  function SuccessMessage(teamName: string, isUpdate: bool): string
  {
    "Team \"" + teamName + MessageTail(isUpdate)
  }

  /** The middle and the end of a three-part concatenation can be cut back out. */
  lemma CutConcat(a: string, b: string, c: string)
    ensures (a + b + c)[|a|..|a| + |b|] == b
    ensures (a + b + c)[|a| + |b|..] == c
  {
  }

  /** The success message determines both the team name it quotes and whether it says "updated". */
  lemma SuccessMessageDetermines(n1: string, u1: bool, n2: string, u2: bool)
    requires SuccessMessage(n1, u1) == SuccessMessage(n2, u2)
    ensures n1 == n2 && u1 == u2
  {
    var head := "Team \"";
    var t1, t2 := MessageTail(u1), MessageTail(u2);
    var m := head + n1 + t1;
    assert m == head + n2 + t2;
    assert |n1| == |n2|;
    CutConcat(head, n1, t1);
    CutConcat(head, n2, t2);
    assert t1[2] == t2[2];
  }

  /** The value the action returned; an empty `error` is falsy. */
  datatype ActionResult = ActionResult(error: Option<string>, team: Option<Team>)

  datatype SubmitOutcome = Returned(result: Option<ActionResult>) | Threw(err: Thrown)

  datatype Toast = Toast(destructive: bool, description: string)

  /** A toast, or a navigation that `setTimeout` performs a second later. */
  datatype Effect = ShowToast(toast: Toast) | NavigateLater(path: string)

  /** How `handleSubmit` routes an outcome. */
  datatype Route = ErrorRoute(message: string) | TeamRoute(team: Team) | FallbackRoute

  function RouteOf(outcome: SubmitOutcome): (r: Route)
    ensures outcome.Threw? ==> r == ErrorRoute(MessageOf(outcome.err, "An error occurred"))
    ensures outcome.Returned? && outcome.result.Some? && Truthy(outcome.result.value.error) ==>
      r == ErrorRoute(outcome.result.value.error.value)
    ensures r.TeamRoute? <==>
      outcome.Returned? && outcome.result.Some? && !Truthy(outcome.result.value.error)
      && outcome.result.value.team.Some?
    ensures r.TeamRoute? ==> r.team == outcome.result.value.team.value
    ensures r == FallbackRoute <==>
      outcome.Returned? && (outcome.result.None? ||
        (!Truthy(outcome.result.value.error) && outcome.result.value.team.None?))
  {
    match outcome
    case Threw(err) => ErrorRoute(MessageOf(err, "An error occurred"))
    case Returned(None) => FallbackRoute
    case Returned(Some(result)) =>
      if Truthy(result.error) then ErrorRoute(result.error.value)
      else if result.team.Some? then TeamRoute(result.team.value)
      else FallbackRoute
  }

  class TeamFormState {
    /** The `team` prop: present when editing. */
    const team: Option<Team>
    var error: string
    var effects: seq<Effect>

    constructor (team: Option<Team>)
      ensures this.team == team && error == "" && effects == []
    {
      this.team := team;
      error := "";
      effects := [];
    }

    /** `handleSubmit(formData)`, where `submittedName` is `formData.get("name")`. */
    method HandleSubmit(submittedName: string, outcome: SubmitOutcome)
      modifies this
      ensures RouteOf(outcome).ErrorRoute? ==>
        error == RouteOf(outcome).message
        && effects == old(effects) + [ShowToast(Toast(true, RouteOf(outcome).message))]
      ensures RouteOf(outcome).TeamRoute? ==>
        var t := RouteOf(outcome).team;
        error == old(error)
        && effects == old(effects) + [ShowToast(Toast(false, SuccessMessage(t.name, team.Some?))),
                                      NavigateLater("/teams/" + t.id)]
      ensures RouteOf(outcome).FallbackRoute? ==>
        error == old(error)
        && effects == old(effects) + [ShowToast(Toast(false, SuccessMessage(submittedName, team.Some?))),
                                      NavigateLater("/teams")]
    {
      match RouteOf(outcome) {
        case ErrorRoute(message) =>
          error := message;
          effects := effects + [ShowToast(Toast(true, message))];
        case TeamRoute(t) =>
          effects := effects + [ShowToast(Toast(false, SuccessMessage(t.name, team.Some?))),
                                NavigateLater("/teams/" + t.id)];
        case FallbackRoute =>
          effects := effects + [ShowToast(Toast(false, SuccessMessage(submittedName, team.Some?))),
                                NavigateLater("/teams")];
      }
    }
  }
}
