/**
 * The collapsible "Best Scenario Results" panel: one `isExpanded` flag, the
 * fixed list of results it shows, the chevron's rotation and the order in
 * which the entries animate in and out.
 */
module ScenarioResults {

  /** The result's `type`, which is also the entry's render key. */
  datatype ResultType = Profit | Demand

  datatype ScenarioResult = ScenarioResult(kind: ResultType, description: string)

  const Results: seq<ScenarioResult> := [
    ScenarioResult(Profit, "The best found configuration based on profit is characterized by 11 zones (max) with charging stations and 48 total number of poles."),
    ScenarioResult(Demand, "The best found configuration based on satisfied demand is characterized by 11 zones (max) with charging stations and 48 total number of poles.")
  ]

  /** Stagger direction of the entering entries (the animation library's default). */
  const EnterDirection: int := 1
  /** Stagger direction of the leaving entries (`staggerDirection: -1`). */
  const ExitDirection: int := -1

  /** What the panel shows: the chevron's rotation in degrees and the entries, in order. */
  datatype PanelView = PanelView(rotation: int, entries: seq<ScenarioResult>)

  function Render(isExpanded: bool): (v: PanelView)
    ensures v.rotation == 0 || v.rotation == 180
    ensures v.rotation == 0 <==> isExpanded
    ensures v.entries != [] <==> isExpanded
    ensures isExpanded ==> v.entries == Results
  {
    PanelView(if isExpanded then 0 else 180, if isExpanded then Results else [])
  }

  /** The entries' keys are pairwise distinct. */
  lemma KeysDistinct()
    ensures forall i, j :: 0 <= i < j < |Results| ==> Results[i].kind != Results[j].kind
  {
  }

  /** When expanded, profit comes first and demand second, each once. */
  lemma ExpandedOrder()
    ensures Render(true).entries == [Results[0], Results[1]]
    ensures Render(true).entries[0].kind == Profit && Render(true).entries[1].kind == Demand
  {
  }

  /**
   * The position, among the staggered starts, of the entry at `index` in a
   * list of `count`: list order for direction 1, reverse order for -1.
   */
  function StaggerSlot(index: nat, count: nat, direction: int): (slot: nat)
    requires index < count
    requires direction == 1 || direction == -1
    ensures slot < count
  {
    if direction == 1 then index else count - 1 - index
  }

  /** The entries in the order their animations start. */
  function Staggered(entries: seq<ScenarioResult>, direction: int): (order: seq<ScenarioResult>)
    requires direction == 1 || direction == -1
    ensures |order| == |entries|
    ensures forall i :: 0 <= i < |entries| ==> order[StaggerSlot(i, |entries|, direction)] == entries[i]
  {
    seq(|entries|, k requires 0 <= k < |entries| => entries[StaggerSlot(k, |entries|, direction)])
  }

  function Reverse(s: seq<ScenarioResult>): (r: seq<ScenarioResult>)
  {
    if s == [] then [] else Reverse(s[1..]) + [s[0]]
  }

  lemma {:induction false} ReverseAt(s: seq<ScenarioResult>, k: nat)
    requires k < |s|
    ensures |Reverse(s)| == |s|
    ensures Reverse(s)[k] == s[|s| - 1 - k]
  {
    if k < |s| - 1 {
      ReverseAt(s[1..], k);
    } else {
      ReverseLength(s[1..]);
    }
  }

  lemma {:induction false} ReverseLength(s: seq<ScenarioResult>)
    ensures |Reverse(s)| == |s|
  {
    if s != [] {
      ReverseLength(s[1..]);
    }
  }

  /** Entries enter in list order and leave in the reverse of that order. */
  lemma ExitReversesEnter(entries: seq<ScenarioResult>)
    ensures Staggered(entries, EnterDirection) == entries
    ensures Staggered(entries, ExitDirection) == Reverse(Staggered(entries, EnterDirection))
  {
    var enter := Staggered(entries, EnterDirection);
    var exit := Staggered(entries, ExitDirection);
    ReverseLength(enter);
    forall k | 0 <= k < |entries|
      ensures exit[k] == Reverse(enter)[k]
    {
      ReverseAt(enter, k);
    }
  }

  /** The panel's local state. */
  class Panel {
    var isExpanded: bool

    /** The panel starts expanded. */
    constructor ()
      ensures isExpanded
      ensures View().entries == Results
    {
      isExpanded := true;
    }

    /** A header click: the flag becomes its negation, so two clicks restore it. */
    method Click()
      modifies this
      ensures isExpanded == !old(isExpanded)
    {
      isExpanded := !isExpanded;
    }

    function View(): (v: PanelView)
      reads this
      ensures v.entries != [] <==> isExpanded
    {
      Render(isExpanded)
    }
  }
}
