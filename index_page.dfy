/** The page-level state of src/pages/Index.tsx: the browser-like history
    of visited locations with back and forward, the keyword routing that
    files an answer under the field the previous question asked about, and
    the choice of documents from a reported quality score. */
module IndexPage {

  import opened Wrappers
  import opened Strings

  // ---------------------------------------------------------------------------
  // navigation history
  // ---------------------------------------------------------------------------

  /** The part of the page's state the navigation handlers touch. */
  datatype NavState = NavState(
    history: seq<string>,
    index: nat,
    hasStarted: bool,
    combinedTabs: seq<string>,
    activeView: string)

  /** The index always points into the history. */
  predicate Valid(s: NavState) {
    s.index < |s.history|
  }

  function Current(s: NavState): string
    requires Valid(s)
  {
    s.history[s.index]
  }

  /** `useState(['home'])`, `useState(0)`, `useState(false)`, `useState([])`
      and `useState('chat')`. */
  function Initial(): NavState {
    NavState(["home"], 0, false, [], "chat")
  }

  /** The view fields after moving from `s` onto the current entry of `r`:
      `'home'` closes the workspace, any other location becomes the active
      view. */
  predicate ArrivedFrom(s: NavState, r: NavState)
    requires Valid(r)
  {
    if Current(r) == "home" then !r.hasStarted && r.combinedTabs == [] && r.activeView == s.activeView
    else r.activeView == Current(r) && r.hasStarted == s.hasStarted && r.combinedTabs == s.combinedTabs
  }

  /** Moving onto entry `i` of the same history. */
  function Arrive(s: NavState, i: nat): (r: NavState)
    requires i < |s.history|
    ensures Valid(r) && r.index == i && r.history == s.history && ArrivedFrom(s, r)
  {
    if s.history[i] == "home" then s.(index := i, hasStarted := false, combinedTabs := [])
    else s.(index := i, activeView := s.history[i])
  }

  /** `navigateTo`: drop everything after the current entry, then push. */
  function Navigate(s: NavState, location: string): (r: NavState)
    requires Valid(s)
    ensures Valid(r) && Current(r) == location && r.index == |r.history| - 1 && |r.history| == s.index + 2
    ensures forall k :: 0 <= k <= s.index ==> r.history[k] == s.history[k]
    ensures r.hasStarted == s.hasStarted && r.combinedTabs == s.combinedTabs && r.activeView == s.activeView
  {
    s.(history := s.history[..s.index + 1] + [location], index := s.index + 1)
  }

  /** `goBack`: at the first entry nothing changes; elsewhere the index
      moves down by one over the same history. */
  function Back(s: NavState): (r: NavState)
    requires Valid(s)
    ensures Valid(r) && r.history == s.history
    ensures s.index == 0 ==> r == s
    ensures s.index > 0 ==> r.index == s.index - 1 && ArrivedFrom(s, r)
  {
    if s.index > 0 then Arrive(s, s.index - 1) else s
  }

  /** `goForward`: at the last entry nothing changes; elsewhere the index
      moves up by one over the same history. */
  function Forward(s: NavState): (r: NavState)
    requires Valid(s)
    ensures Valid(r) && r.history == s.history
    ensures s.index == |s.history| - 1 ==> r == s
    ensures s.index < |s.history| - 1 ==> r.index == s.index + 1 && ArrivedFrom(s, r)
  {
    if s.index < |s.history| - 1 then Arrive(s, s.index + 1) else s
  }

  /** `goHome`, restricted to the navigation state: push `'home'`, close the
      workspace and show the chat. */
  function Home(s: NavState): (r: NavState)
    requires Valid(s)
    ensures Valid(r) && Current(r) == "home" && r.index == s.index + 1
    ensures forall k :: 0 <= k <= s.index ==> r.history[k] == s.history[k]
    ensures r.history == s.history[..s.index + 1] + ["home"]
    ensures !r.hasStarted && r.combinedTabs == [] && r.activeView == "chat"
  {
    Navigate(s, "home").(hasStarted := false, combinedTabs := [], activeView := "chat")
  }

  lemma InitialAtHome()
    ensures Valid(Initial()) && Initial().history == ["home"] && Current(Initial()) == "home"
    ensures !Initial().hasStarted && Initial().combinedTabs == [] && Initial().activeView == "chat"
  {
  }

  /** Back then forward returns to the same entry of the same history. */
  lemma BackThenForward(s: NavState)
    requires Valid(s) && s.index > 0
    ensures Valid(Back(s))
    ensures Forward(Back(s)).history == s.history && Forward(Back(s)).index == s.index
  {
  }

  /** Forward then back returns to the same entry of the same history. */
  lemma ForwardThenBack(s: NavState)
    requires Valid(s) && s.index < |s.history| - 1
    ensures Valid(Forward(s))
    ensures Back(Forward(s)).history == s.history && Back(Forward(s)).index == s.index
  {
  }

  /** After navigating there is nothing to go forward to. */
  lemma NavigateCutsForward(s: NavState, location: string)
    requires Valid(s)
    ensures Valid(Navigate(s, location))
    ensures Forward(Navigate(s, location)) == Navigate(s, location)
  {
  }

  /** Navigating and going back lands on the entry that was current. */
  lemma NavigateThenBack(s: NavState, location: string)
    requires Valid(s)
    ensures Valid(Navigate(s, location))
    ensures Back(Navigate(s, location)).index == s.index
    ensures Current(Back(Navigate(s, location))) == Current(s)
  {
  }

  /** One of the handlers the page offers. */
  datatype NavAction = NavigateTo(location: string) | GoBack | GoForward | GoHome

  function Step(s: NavState, a: NavAction): NavState
    requires Valid(s)
  {
    match a
    case NavigateTo(location) => Navigate(s, location)
    case GoBack => Back(s)
    case GoForward => Forward(s)
    case GoHome => Home(s)
  }

  /** Every state reachable from the initial one keeps its index inside the
      history, and the first entry stays `'home'`. */
  function Run(actions: seq<NavAction>): (r: NavState)
    ensures Valid(r) && r.history != [] && r.history[0] == "home"
    decreases |actions|
  {
    if actions == [] then Initial()
    else
      var s := Run(actions[..|actions| - 1]);
      var a := actions[|actions| - 1];
      Step(s, a)
  }

  /** The navigation handlers over the page's state. */
  class Navigator {
    var history: seq<string>
    var index: nat
    var hasStarted: bool
    var combinedTabs: seq<string>
    var activeView: string

    function State(): NavState
      reads this
    {
      NavState(history, index, hasStarted, combinedTabs, activeView)
    }

    constructor ()
      ensures State() == Initial()
    {
      history, index := ["home"], 0;
      hasStarted, combinedTabs, activeView := false, [], "chat";
    }

    method NavigateTo(location: string)
      requires Valid(State())
      modifies this`history, this`index
      ensures State() == Navigate(old(State()), location)
    {
      var newHistory := history[..index + 1];
      newHistory := newHistory + [location];
      history := newHistory;
      index := |newHistory| - 1;
    }

    /** The view fields set on arriving at `location`. */
    method ArriveAt(location: string)
      modifies this`hasStarted, this`combinedTabs, this`activeView
      ensures location == "home" ==>
        !hasStarted && combinedTabs == [] && activeView == old(activeView)
      ensures location != "home" ==>
        activeView == location && hasStarted == old(hasStarted) && combinedTabs == old(combinedTabs)
    {
      if location == "home" {
        hasStarted := false;
        combinedTabs := [];
      } else {
        activeView := location;
      }
    }

    method GoBack()
      requires Valid(State())
      modifies this`index, this`hasStarted, this`combinedTabs, this`activeView
      ensures State() == Back(old(State()))
    {
      if index > 0 {
        var previousLocation := history[index - 1];
        index := index - 1;
        ArriveAt(previousLocation);
      }
    }

    method GoForward()
      requires Valid(State())
      modifies this`index, this`hasStarted, this`combinedTabs, this`activeView
      ensures State() == Forward(old(State()))
    {
      if index < |history| - 1 {
        var nextLocation := history[index + 1];
        index := index + 1;
        ArriveAt(nextLocation);
      }
    }

    method GoHome()
      requires Valid(State())
      modifies this
      ensures State() == Home(old(State()))
    {
      NavigateTo("home");
      hasStarted := false;
      activeView := "chat";
      combinedTabs := [];
    }
  }

  // ---------------------------------------------------------------------------
  // routing an answer into the conversation data
  // ---------------------------------------------------------------------------

  datatype Role = User | Assistant

  datatype Message = Message(role: Role, content: string)

  /** The field of the conversation data an answer can fill. */
  datatype Field = Description | Features | Installation | Usage | ProjectName

  function FieldKey(f: Field): string {
    match f
    case Description => "description"
    case Features => "features"
    case Installation => "installation"
    case Usage => "usage"
    case ProjectName => "projectName"
  }

  /** The previous message, lower-cased; `''` when there is none. */
  function LastQuestion(messages: seq<Message>): string {
    if messages == [] then "" else Lower(messages[|messages| - 1].content)
  }

  /** The chain of keyword tests; the first that holds picks the field. */
  function RouteField(q: string): Option<Field> {
    if Contains(q, "purpose") || Contains(q, "main") then Some(Description)
    else if Contains(q, "features") || Contains(q, "capabilities") then Some(Features)
    else if Contains(q, "install") || Contains(q, "setup") then Some(Installation)
    else if Contains(q, "usage") || Contains(q, "use") then Some(Usage)
    else if Contains(q, "name") then Some(ProjectName)
    else None
  }

  /** `setConversationData(prev => ({ ...prev, field: message }))` for the
      routed field, if any: at most one entry is written, with the answer,
      and every other entry is kept. */
  function Route(data: map<string, string>, messages: seq<Message>, message: string): (r: map<string, string>)
    ensures RouteField(LastQuestion(messages)).None? ==> r == data
    ensures RouteField(LastQuestion(messages)).Some? ==>
      var key := FieldKey(RouteField(LastQuestion(messages)).value);
      r.Keys == data.Keys + {key} && r[key] == message &&
      forall k :: k in data && k != key ==> r[k] == data[k]
  {
    match RouteField(LastQuestion(messages))
    case None => data
    case Some(f) => data[FieldKey(f) := message]
  }

  /** The keyword groups in their order of priority. */
  function Keywords(f: Field): seq<string> {
    match f
    case Description => ["purpose", "main"]
    case Features => ["features", "capabilities"]
    case Installation => ["install", "setup"]
    case Usage => ["usage", "use"]
    case ProjectName => ["name"]
  }

  function Rank(f: Field): nat {
    match f
    case Description => 0
    case Features => 1
    case Installation => 2
    case Usage => 3
    case ProjectName => 4
  }

  predicate Mentions(q: string, f: Field) {
    exists w :: w in Keywords(f) && Contains(q, w)
  }

  /** The field chosen is one the question mentions and no field of higher
      priority is mentioned; nothing is chosen exactly when no keyword
      occurs. */
  lemma RouteFieldSpec(q: string)
    ensures RouteField(q).Some? ==> Mentions(q, RouteField(q).value)
    ensures RouteField(q).Some? ==>
      forall g :: Rank(g) < Rank(RouteField(q).value) ==> !Mentions(q, g)
    ensures RouteField(q).None? <==> forall g :: !Mentions(q, g)
  {
    assert Keywords(Description) == ["purpose", "main"];
    assert Keywords(Features) == ["features", "capabilities"];
    assert Keywords(Installation) == ["install", "setup"];
    assert Keywords(Usage) == ["usage", "use"];
    assert Keywords(ProjectName) == ["name"];
  }

  /** With no previous message nothing is routed. */
  lemma FirstAnswerNotRouted(data: map<string, string>, message: string)
    ensures Route(data, [], message) == data
  {
    assert !Contains("", "purpose") && !Contains("", "main");
    assert !Contains("", "features") && !Contains("", "capabilities");
    assert !Contains("", "install") && !Contains("", "setup");
    assert !Contains("", "usage") && !Contains("", "use") && !Contains("", "name");
  }

  lemma LowerOccurs(s: string, p: string, i: nat)
    requires OccursAt(s, p, i)
    ensures OccursAt(Lower(s), Lower(p), i)
  {
    assert Lower(s)[i..i + |p|] == Lower(p);
  }

  /** Keywords are matched whatever the case of the question. */
  lemma RouteIgnoresCase(messages: seq<Message>, w: string, upper: string)
    requires messages != [] && Lower(upper) == w && Contains(messages[|messages| - 1].content, upper)
    ensures Contains(LastQuestion(messages), w)
  {
    var c := messages[|messages| - 1].content;
    ContainsIff(c, upper);
    var i :| OccursAt(c, upper, i);
    LowerOccurs(c, upper, i);
    ContainsIff(Lower(c), w);
  }

  /** A question that asks for a user name never fills the project name:
      `'username'` contains `'use'`, which routes to the usage field first. */
  lemma UserNameIsUsage(q: string)
    requires Contains(q, "username")
    ensures RouteField(q).Some? && RouteField(q) != Some(ProjectName)
  {
    ContainsIff(q, "username");
    var i :| OccursAt(q, "username", i);
    assert q[i..i + 3] == "use" by {
      assert q[i..i + 8][..3] == "use";
    }
    assert OccursAt(q, "use", i);
    ContainsIff(q, "use");
  }

  // ---------------------------------------------------------------------------
  // quality score and documents after a reply
  // ---------------------------------------------------------------------------

  /** `setQualityScore(data.qualityScore || qualityScore)`: a missing or zero
      score keeps the current one. */
  function NextQualityScore(current: int, reported: Option<int>): (r: int)
    ensures r == current <==> reported.None? || reported.value == 0 || reported.value == current
    ensures reported.Some? && reported.value != 0 ==> r == reported.value
  {
    if reported.Some? && reported.value != 0 then reported.value else current
  }

  /** The documents shown after a reply: README and CONTRIBUTING from 60,
      API_REFERENCE and INSTALLATION as well from 80; below 60 (or with no
      score) the list is left alone. Only the file names are modelled. */
  function SelectDocuments(docs: seq<string>, reported: Option<int>): (r: seq<string>)
    ensures (reported.None? || reported.value < 60) ==> r == docs
    ensures reported.Some? && 60 <= reported.value < 80 ==> r == ["README.md", "CONTRIBUTING.md"]
    ensures reported.Some? && reported.value >= 80 ==>
      r == ["README.md", "CONTRIBUTING.md", "API_REFERENCE.md", "INSTALLATION.md"]
  {
    if reported.Some? && reported.value >= 60 then
      ["README.md", "CONTRIBUTING.md"]
        + (if reported.value >= 80 then ["API_REFERENCE.md", "INSTALLATION.md"] else [])
    else docs
  }

  /** A higher score never offers fewer documents. */
  lemma SelectDocumentsMonotone(docs: seq<string>, v: int, w: int)
    requires 60 <= v <= w
    ensures forall d :: d in SelectDocuments(docs, Some(v)) ==> d in SelectDocuments(docs, Some(w))
  {
  }
}
