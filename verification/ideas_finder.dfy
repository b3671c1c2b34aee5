/**
 * The project ideas finder: two selections, a button, and the list of ideas
 * the `suggest-projects` function returns. `handleFindProjects` is split at
 * its one `await`: `Begin` runs up to the call and `Complete` runs after it,
 * `finally` included. The call's result is a parameter.
 */
module IdeasFinder {
  import opened Json
  import opened Js
  import opened Ui

  /**
   * The component's state. `projects` is whatever `data.projects` held; the
   * type annotation on the state is not checked at run time.
   */
  datatype State = State(skillLevel: string, interest: string, isLoading: bool, projects: Json)

  /** What `supabase.functions.invoke` resolves to: an `error`, or `data` with no error. */
  datatype InvokeOutcome = InvokeFailed | InvokeReturned(data: Value)

  const Initial := State("", "", false, JArr([]))

  const MissingInformation := Toast("Missing Information", "Please select both skill level and area of interest.", true)
  const FailedToast := Toast("Error", "Failed to generate project ideas. Please try again.", true)

  const SkillLevels: seq<string> := ["Beginner", "Intermediate", "Expert"]
  const Interests: seq<string> := ["Machine Learning", "Web Development", "Mobile Development", "Data Analytics",
    "Artificial Intelligence", "Cybersecurity", "Game Development", "DevOps", "Blockchain", "Cloud Computing"]

  /** The toast announcing the list, with the count as its template literal converted it. */
  function FoundToast(count: string): Toast
  {
    Toast("Projects Found!", "We found " + count + " exciting projects for you.", false)
  }

  /** What `Begin` leads to: a toast and nothing else, or a call with this body. */
  datatype Started = Refused(toast: Toast) | Calling(state: State, body: Json)

  /** The body the component sends: the two selections. */
  function CallBody(s: State): Json
  {
    JObj([Field("skillLevel", JStr(s.skillLevel)), Field("interest", JStr(s.interest))])
  }

  /** `handleFindProjects` up to the call. */
  function Begin(s: State): (r: Started)
    ensures r.Refused? <==> s.skillLevel == "" || s.interest == ""
    ensures r.Refused? ==> r.toast == MissingInformation
    ensures r.Calling? ==> r.state == s.(isLoading := true, projects := JArr([])) && r.body == CallBody(s)
  {
    if s.skillLevel == "" || s.interest == "" then Refused(MissingInformation)
    else Calling(s.(isLoading := true, projects := JArr([])), CallBody(s))
  }

  /**
   * `handleFindProjects` after the call. A failed call is thrown and caught.
   * Reading `data.projects.length` cannot fail once `data?.projects` is
   * truthy, but converting it to a string for the toast can: the list is
   * already set by then, and the catch shows the error toast instead.
   * Returns the new state and the toast shown, if any.
   */
  function Complete(s: State, outcome: InvokeOutcome): (r: (State, Option<Toast>))
    ensures !r.0.isLoading
    ensures r.0.skillLevel == s.skillLevel && r.0.interest == s.interest
    ensures outcome.InvokeFailed? ==> r == (s.(isLoading := false), Some(FailedToast))
    ensures outcome.InvokeReturned? && Truthy(OptGet(outcome.data, "projects"))
            ==> r.0.projects == OptGet(outcome.data, "projects").json
    ensures outcome.InvokeReturned? && Truthy(OptGet(outcome.data, "projects"))
            && !ToStringThrows(Member(r.0.projects, "length"))
            ==> r.1 == Some(FoundToast(ToJsString(Member(r.0.projects, "length")).value))
    ensures outcome.InvokeReturned? && Truthy(OptGet(outcome.data, "projects"))
            && ToStringThrows(Member(r.0.projects, "length"))
            ==> r.1 == Some(FailedToast)
    ensures outcome.InvokeReturned? && !Truthy(OptGet(outcome.data, "projects"))
            ==> r == (s.(isLoading := false), None)
  {
    match outcome
    case InvokeFailed => (s.(isLoading := false), Some(FailedToast))
    case InvokeReturned(data) =>
      var projects := OptGet(data, "projects");
      if Truthy(projects) then
        var shown := s.(isLoading := false, projects := projects.json);
        match ToJsString(Member(projects.json, "length"))
        case Ok(count) => (shown, Some(FoundToast(count)))
        case Err(_) => (shown, Some(FailedToast))
      else (s.(isLoading := false), None)
  }

  /** A list of ideas is announced with its length. */
  lemma ListCounted(s: State, data: Value, ideas: seq<Json>)
    requires OptGet(data, "projects") == Val(JArr(ideas))
    ensures Complete(s, InvokeReturned(data)) == (s.(isLoading := false, projects := JArr(ideas)), Some(FoundToast(IntToString(|ideas|))))
  {
  }

  /** The whole of one click, with the call's outcome given. */
  datatype Run = Run(state: State, toast: Option<Toast>, call: Option<Json>)

  function FindProjects(s: State, outcome: InvokeOutcome): (r: Run)
    ensures r.call.Some? <==> s.skillLevel != "" && s.interest != ""
    ensures r.call.None? ==> r == Run(s, Some(MissingInformation), None)
    ensures r.call.Some? ==> r.call.value == CallBody(s) && !r.state.isLoading
    ensures r.call.Some? && outcome.InvokeReturned? && Truthy(OptGet(outcome.data, "projects"))
            ==> r.state.projects == OptGet(outcome.data, "projects").json
    ensures r.call.Some? && !(outcome.InvokeReturned? && Truthy(OptGet(outcome.data, "projects")))
            ==> r.state.projects == JArr([])
  {
    match Begin(s)
    case Refused(toast) => Run(s, Some(toast), None)
    case Calling(busy, body) =>
      var (next, toast) := Complete(busy, outcome);
      Run(next, toast, Some(body))
  }

  /** `disabled={isLoading || !skillLevel || !interest}`: a call runs, or a click would be refused. */
  predicate ButtonDisabled(s: State)
    ensures ButtonDisabled(s) <==> s.isLoading || Begin(s).Refused?
  {
    s.isLoading || s.skillLevel == "" || s.interest == ""
  }

  const EasyColor := "bg-accent/20 text-accent-foreground"
  const MediumColor := "bg-secondary/20 text-secondary-foreground"
  const HardColor := "bg-destructive/20 text-destructive-foreground"
  const DefaultColor := "bg-muted text-muted-foreground"

  /** The badge classes for a difficulty; any other text gets the muted style. */
  function DifficultyColor(difficulty: string): (r: string)
    ensures r == DefaultColor <==> difficulty !in {"Easy", "Medium", "Hard"}
    ensures r in {EasyColor, MediumColor, HardColor, DefaultColor}
  {
    if difficulty == "Easy" then EasyColor
    else if difficulty == "Medium" then MediumColor
    else if difficulty == "Hard" then HardColor
    else DefaultColor
  }

  /** The three difficulties get three different styles. */
  lemma DifficultyColorsDistinct(a: string, b: string)
    requires a in {"Easy", "Medium", "Hard"} && b in {"Easy", "Medium", "Hard"} && a != b
    ensures DifficultyColor(a) != DifficultyColor(b)
  {
  }

  /** An enabled button leads to a call, and the call clears the list while it runs. */
  lemma EnabledButtonCalls(s: State)
    requires !ButtonDisabled(s)
    ensures Begin(s).Calling? && Begin(s).state.isLoading && Begin(s).state.projects == JArr([])
  {
  }

  /** While a call runs, the button is disabled; once it completes, it is enabled again. */
  lemma ButtonDuringAndAfter(s: State, outcome: InvokeOutcome)
    requires Begin(s).Calling?
    ensures ButtonDisabled(Begin(s).state)
    ensures !ButtonDisabled(Complete(Begin(s).state, outcome).0)
  {
  }

  /** Any choice from the two menus passes the check. */
  lemma MenuChoicesCall(s: State, i: nat, j: nat)
    requires i < |SkillLevels| && j < |Interests|
    requires s.skillLevel == SkillLevels[i] && s.interest == Interests[j]
    ensures Begin(s).Calling?
  {
  }
}
