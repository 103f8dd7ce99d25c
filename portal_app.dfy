/** The client's handling of the favourite-tools checkboxes: the state
    updater, the comma-joined form field sent on submit, and the text the
    welcome page shows. */
module PortalApp {
  import opened Wrappers
  import opened Strings
  import opened EmployeeRoutes

  /** The checkboxes the create-account form offers. */
  const OfferedTools: seq<string> :=
    ["Git", "Linux", "Shell Scripting", "Maven", "Jenkins", "Docker", "Kubernetes", "AWS", "Terraform"]

  /** `prevTools.filter((tool) => tool !== value)`. */
  function RemoveAll(xs: seq<string>, v: string): (r: seq<string>)
    ensures v !in r
    ensures forall t :: t in r <==> t in xs && t != v
    ensures forall t :: t != v ==> multiset(r)[t] == multiset(xs)[t]
    ensures v !in xs ==> r == xs
  {
    if xs == [] then []
    else
      assert xs == [xs[0]] + xs[1..];
      (if xs[0] == v then [] else [xs[0]]) + RemoveAll(xs[1..], v)
  }

  /** The updater passed to `setFavTools`: a checked box appends its tool, an
      unchecked one removes every copy of it. */
  function HandleToolChange(prev: seq<string>, value: string, checked: bool): (r: seq<string>)
    ensures checked ==> |r| == |prev| + 1 && r[..|prev|] == prev && r[|prev|] == value
    ensures !checked ==> value !in r && forall t :: t != value ==> multiset(r)[t] == multiset(prev)[t]
    ensures !checked && value !in prev ==> r == prev
    ensures !checked ==> r == RemoveAll(prev, value)
  {
    if checked then prev + [value] else RemoveAll(prev, value)
  }

  /** The `favTools` form field: `favTools.join(",")`. */
  function EncodeSelection(tools: seq<string>): string
  {
    Join(tools, ",")
  }

  /** `favTools.join(", ") || "None"`. */
  function ToolsDisplay(tools: seq<string>): (r: string)
    ensures r != ""
    ensures Join(tools, ", ") != "" ==> r == Join(tools, ", ")
    ensures r == "None" <==> tools == [] || tools == [""] || Join(tools, ", ") == "None"
  {
    JoinEmpty(tools, ", ");
    var shown := Join(tools, ", ");
    if shown == "" then "None" else shown
  }

  predicate FromForm(tools: seq<string>)
  {
    forall t :: t in tools ==> t in OfferedTools
  }

  /** Removing a tool keeps every other tool in its relative order: the
      filter distributes over concatenation. */
  lemma {:induction false} RemoveAllAppend(a: seq<string>, b: seq<string>, v: string)
    ensures RemoveAll(a + b, v) == RemoveAll(a, v) + RemoveAll(b, v)
  {
    if a == [] {
      assert a + b == b;
    } else {
      assert (a + b)[0] == a[0] && (a + b)[1..] == a[1..] + b;
      RemoveAllAppend(a[1..], b, v);
    }
  }

  /** Unchecking twice is unchecking once. */
  lemma UncheckIdempotent(prev: seq<string>, v: string)
    ensures HandleToolChange(HandleToolChange(prev, v, false), v, false) == HandleToolChange(prev, v, false)
  {
  }

  /** Checking and then unchecking a tool that was not selected restores the
      selection. */
  lemma {:induction false} CheckThenUncheck(prev: seq<string>, v: string)
    requires v !in prev
    ensures HandleToolChange(HandleToolChange(prev, v, true), v, false) == prev
  {
    RemoveAllAppend(prev, [v], v);
    assert RemoveAll([v], v) == [];
  }

  /** No offered tool name contains a comma. */
  lemma OfferedToolsCommaFree()
    ensures forall i :: 0 <= i < |OfferedTools| ==> ',' !in OfferedTools[i]
  {
  }

  /** A selection made through the form stays within the offered tools. */
  lemma ToolChangeStaysOffered(prev: seq<string>, value: string, checked: bool)
    requires FromForm(prev) && value in OfferedTools
    ensures FromForm(HandleToolChange(prev, value, checked))
  {
  }

  /** The backend split recovers a nonempty form selection from the field
      the client sends; an empty selection arrives as one empty name. */
  lemma SelectionRoundTrip(tools: seq<string>)
    requires FromForm(tools)
    ensures |tools| > 0 ==> NormalizeFavTools(ToolsString(EncodeSelection(tools))) == Some(tools)
    ensures tools == [] ==> NormalizeFavTools(ToolsString(EncodeSelection(tools))) == Some([""])
  {
    if |tools| > 0 {
      OfferedToolsCommaFree();
      assert forall i :: 0 <= i < |tools| ==> ',' !in tools[i] by {
        forall i | 0 <= i < |tools| ensures ',' !in tools[i] {
          assert tools[i] in OfferedTools;
        }
      }
      SplitJoin(tools, ',');
    }
  }

  /** Every offered name is at least three characters long. */
  lemma OfferedToolsLong()
    ensures forall i :: 0 <= i < |OfferedTools| ==> |OfferedTools[i]| >= 3 && OfferedTools[i] != "None"
  {
  }

  /** For a selection made through the form, the welcome page shows "None"
      exactly when nothing was selected. */
  lemma FormSelectionShownNone(tools: seq<string>)
    requires FromForm(tools)
    ensures ToolsDisplay(tools) == "None" <==> tools == []
  {
    OfferedToolsLong();
    if |tools| == 1 {
      assert tools[0] in OfferedTools;
    } else if |tools| >= 2 {
      assert tools[0] in OfferedTools;
      assert |Join(tools, ", ")| >= |tools[0]| + 2;
    }
  }

  /** The tools a user selected, sent, stored and returned by login, are shown
      on the welcome page as their `", "`-join, and as "None" exactly when the
      selection was empty. */
  lemma WelcomeShowsStoredSelection(tools: seq<string>)
    requires FromForm(tools)
    ensures var stored := NormalizeFavTools(ToolsString(EncodeSelection(tools))).value;
            ToolsDisplay(stored) == "None" <==> tools == []
    ensures tools != [] ==>
              ToolsDisplay(NormalizeFavTools(ToolsString(EncodeSelection(tools))).value) == Join(tools, ", ")
  {
    SelectionRoundTrip(tools);
    if tools != [] {
      FormSelectionShownNone(tools);
      JoinEmpty(tools, ", ");
    }
  }
}
