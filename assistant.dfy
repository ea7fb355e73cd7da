/** The design assistant's rule-based heuristics: pattern detectors that
    produce suggestions for a design, a keyword classifier that explains a
    design-rule error, and a decision ladder that picks the next tutorial
    step. Python's str.lower()/str.upper() are modelled by ASCII case folding. */
module Assistant {
  import opened Schema
  import opened Text
  import opened Seqs
  import Drc

  /** The suggestion's "type" field: "component", "placement" or "routing". */
  datatype SuggestionType = ComponentHint | PlacementHint | RoutingHint

  /** A suggested editor action: its "type" and its string parameters. */
  datatype Action = Action(actionType: string, params: map<string, string>)

  /** One suggestion dictionary; "action" is None where the source writes null. */
  datatype Suggestion = Suggestion(
    id: string,
    kind: SuggestionType,
    message: string,
    action: Option<Action>,
    relatedIds: seq<string>)

  function ComponentIds(cs: seq<Component>): (r: seq<string>)
    ensures |r| == |cs| && forall k :: 0 <= k < |r| ==> r[k] == cs[k].id
  {
    seq(|cs|, k requires 0 <= k < |cs| => cs[k].id)
  }

  function NetIds(nets: seq<Net>): (r: seq<string>)
    ensures |r| == |nets| && forall k :: 0 <= k < |r| ==> r[k] == nets[k].id
  {
    seq(|nets|, k requires 0 <= k < |nets| => nets[k].id)
  }

  // ---------------------------------------------------------------------------
  // Pattern 1: floating inputs

  /** An integrated circuit, by its lower-cased type. */
  predicate IsIc(c: Component) {
    Lower(c.kind) in ["mcu", "ic", "microcontroller", "gate"]
  }

  /** Some connection string of the net has id as a substring, so "U1" also
      matches a connection of "U10". */
  predicate TouchesNet(id: string, n: Net) {
    exists k :: 0 <= k < |n.connectionIds| && Contains(n.connectionIds[k], id)
  }

  lemma TouchesNetMeans(id: string, n: Net)
    ensures TouchesNet(id, n) <==> exists k :: 0 <= k < |n.connectionIds| && OccursIn(id, n.connectionIds[k])
  {
    forall k | 0 <= k < |n.connectionIds| {
      ContainsMeansOccurs(n.connectionIds[k], id);
    }
  }

  /** The id-as-substring match: component U1 counts a connection of U10. */
  lemma TouchesNetBySubstring()
    ensures TouchesNet("U1", Net("n1", ["U10.1"]))
  {
    var n := Net("n1", ["U10.1"]);
    assert "U1" <= n.connectionIds[0];
  }

  /** The nets that mention the component id in some connection, in net order. */
  function NetsOf(id: string, nets: seq<Net>): (r: seq<Net>)
    ensures forall n :: n in r <==> n in nets && TouchesNet(id, n)
  {
    Filter(nets, n => TouchesNet(id, n))
  }

  predicate IsFloating(c: Component, nets: seq<Net>) {
    |NetsOf(c.id, nets)| < 2
  }

  const FloatingInputAdvice := "' may have unconnected input pins. Make sure all required pins are connected (power, ground, and signal pins)."

  function FloatingInputHint(c: Component): Suggestion {
    Suggestion(
      id := "floating_input_" + c.id,
      kind := ComponentHint,
      message := "Component '" + c.id + FloatingInputAdvice,
      action := Some(Action("highlight_component", map["component_id" := c.id])),
      relatedIds := [c.id])
  }

  /** Specification of the loop over the ICs: a hint for each floating one, in order. */
  function FloatingHints(ics: seq<Component>, nets: seq<Net>): seq<Suggestion>
    decreases |ics|
  {
    if ics == [] then []
    else
      var last := ics[|ics| - 1];
      FloatingHints(ics[..|ics| - 1], nets) + (if IsFloating(last, nets) then [FloatingInputHint(last)] else [])
  }

  function FloatingInputs(b: Board): seq<Suggestion> {
    FloatingHints(Filter(b.components, IsIc), b.nets)
  }

  method DetectFloatingInputs(design: Design) returns (suggestions: seq<Suggestion>)
    ensures suggestions == FloatingInputs(design.board)
  {
    var nets := design.board.nets;
    var ics := Filter(design.board.components, IsIc);
    suggestions := [];
    var i := 0;
    while i < |ics|
      invariant 0 <= i <= |ics|
      invariant suggestions == FloatingHints(ics[..i], nets)
    {
      var ic := ics[i];
      var icNets := NetsOf(ic.id, nets);
      if |icNets| < 2 {
        suggestions := suggestions + [FloatingInputHint(ic)];
      }
      FloatingStep(ics, nets, i);
      i := i + 1;
    }
    assert ics[..|ics|] == ics;
  }

  lemma FloatingStep(ics: seq<Component>, nets: seq<Net>, i: nat)
    requires i < |ics|
    ensures FloatingHints(ics[..i + 1], nets)
         == FloatingHints(ics[..i], nets) + (if IsFloating(ics[i], nets) then [FloatingInputHint(ics[i])] else [])
  {
    assert ics[..i + 1][..i] == ics[..i];
  }

  /** Every floating-input hint is the hint of a floating component in the list. */
  lemma {:induction false} FloatingHintsSource(ics: seq<Component>, nets: seq<Net>, s: Suggestion)
    requires s in FloatingHints(ics, nets)
    ensures exists j :: 0 <= j < |ics| && IsFloating(ics[j], nets) && s == FloatingInputHint(ics[j])
    decreases |ics|
  {
    var init := ics[..|ics| - 1];
    var last := ics[|ics| - 1];
    if s in FloatingHints(init, nets) {
      FloatingHintsSource(init, nets, s);
      var j :| 0 <= j < |init| && IsFloating(init[j], nets) && s == FloatingInputHint(init[j]);
      assert ics[j] == init[j];
    } else {
      assert IsFloating(last, nets) && s == FloatingInputHint(last);
    }
  }

  /** Every floating component in the list gets its hint. */
  lemma {:induction false} FloatingHintsComplete(ics: seq<Component>, nets: seq<Net>, j: nat)
    requires j < |ics| && IsFloating(ics[j], nets)
    ensures FloatingInputHint(ics[j]) in FloatingHints(ics, nets)
    decreases |ics|
  {
    var init := ics[..|ics| - 1];
    if j < |ics| - 1 {
      assert init[j] == ics[j];
      FloatingHintsComplete(init, nets, j);
    }
  }

  /** With distinct component ids, a component gets a floating-input hint
      exactly when it is an IC and fewer than two nets mention its id. */
  lemma FloatingInputIff(b: Board, i: nat)
    requires Drc.DistinctComponentIds(b.components) && i < |b.components|
    ensures var c := b.components[i];
      (exists s :: s in FloatingInputs(b) && s.id == "floating_input_" + c.id)
      <==> IsIc(c) && |NetsOf(c.id, b.nets)| < 2
  {
    var cs := b.components;
    var c := cs[i];
    var ics := Filter(cs, IsIc);
    if IsIc(c) && IsFloating(c, b.nets) {
      var j :| 0 <= j < |ics| && ics[j] == c;
      FloatingHintsComplete(ics, b.nets, j);
    }
    if exists s :: s in FloatingInputs(b) && s.id == "floating_input_" + c.id {
      var s :| s in FloatingInputs(b) && s.id == "floating_input_" + c.id;
      FloatingHintsSource(ics, b.nets, s);
      var j :| 0 <= j < |ics| && IsFloating(ics[j], b.nets) && s == FloatingInputHint(ics[j]);
      PrefixCancel("floating_input_", ics[j].id, c.id);
      var m :| 0 <= m < |cs| && cs[m] == ics[j];
      assert m == i;
    }
  }

  // ---------------------------------------------------------------------------
  // Pattern 2: missing decoupling capacitors

  /** An IC that wants a decoupling capacitor; logic gates are not included. */
  predicate NeedsDecoupling(c: Component) {
    Lower(c.kind) in ["mcu", "ic", "microcontroller"]
  }

  /** The source's capacitor test: the lower-cased type contains "cap" or "capacitor". */
  predicate IsCapacitor(c: Component) {
    Contains(Lower(c.kind), "cap") || Contains(Lower(c.kind), "capacitor")
  }

  /** The second disjunct of the capacitor test never decides anything. */
  lemma CapacitorTest(c: Component)
    ensures IsCapacitor(c) <==> Contains(Lower(c.kind), "cap")
  {
    if Contains(Lower(c.kind), "capacitor") {
      assert "cap" <= "capacitor";
      ContainsTransitive(Lower(c.kind), "capacitor", "cap");
    }
  }

  const DecouplingAdvice := "' to filter power supply noise. This is a best practice for stable operation."

  function DecouplingHint(c: Component): Suggestion {
    Suggestion(
      id := "decoupling_" + c.id,
      kind := ComponentHint,
      message := "Consider adding a decoupling capacitor (0.1\U{00B5}F) near '" + c.id + DecouplingAdvice,
      action := Some(Action("add_component", map["type" := "capacitor", "value" := "0.1\U{00B5}F", "near" := c.id])),
      relatedIds := [c.id])
  }

  function DecouplingHintsFor(ics: seq<Component>): (r: seq<Suggestion>)
    ensures |r| == |ics| && forall k :: 0 <= k < |r| ==> r[k] == DecouplingHint(ics[k])
  {
    seq(|ics|, k requires 0 <= k < |ics| => DecouplingHint(ics[k]))
  }

  lemma DecouplingStep(ics: seq<Component>, i: nat)
    requires i < |ics|
    ensures DecouplingHintsFor(ics[..i + 1]) == DecouplingHintsFor(ics[..i]) + [DecouplingHint(ics[i])]
  {
  }

  /** Specification of pattern 2: a hint per IC, in order, when the design has
      no capacitor at all, and nothing otherwise. */
  function DecouplingHints(b: Board): seq<Suggestion> {
    if Filter(b.components, IsCapacitor) == [] then DecouplingHintsFor(Filter(b.components, NeedsDecoupling)) else []
  }

  method DetectMissingDecoupling(design: Design) returns (suggestions: seq<Suggestion>)
    ensures suggestions == DecouplingHints(design.board)
  {
    var ics := Filter(design.board.components, NeedsDecoupling);
    var capacitors := Filter(design.board.components, IsCapacitor);
    suggestions := [];
    var i := 0;
    while i < |ics|
      invariant 0 <= i <= |ics|
      invariant suggestions == if capacitors == [] then DecouplingHintsFor(ics[..i]) else []
    {
      var ic := ics[i];
      if |capacitors| == 0 {
        suggestions := suggestions + [DecouplingHint(ic)];
      }
      DecouplingStep(ics, i);
      i := i + 1;
    }
    assert ics[..|ics|] == ics;
  }

  /** Decoupling hints appear exactly when some component needs decoupling
      and no component type contains "cap". */
  lemma DecouplingIff(b: Board)
    ensures DecouplingHints(b) != [] <==>
      (exists k :: 0 <= k < |b.components| && NeedsDecoupling(b.components[k])) &&
      (forall k :: 0 <= k < |b.components| ==> !Contains(Lower(b.components[k].kind), "cap"))
  {
    var cs := b.components;
    forall k | 0 <= k < |cs| {
      CapacitorTest(cs[k]);
    }
    FilterEmpty(cs, IsCapacitor);
    FilterEmpty(cs, NeedsDecoupling);
  }

  // ---------------------------------------------------------------------------
  // Pattern 3 and the fixed hints

  /** Python's `n.name and n.name.upper() in [...]`: an absent or empty name never matches. */
  predicate NameIn(n: Net, names: seq<string>) {
    n.name.Some? && n.name.value != "" && Upper(n.name.value) in names
  }

  predicate IsPowerNet(n: Net) {
    NameIn(n, ["VCC", "VDD", "POWER"])
  }

  predicate IsGroundNet(n: Net) {
    NameIn(n, ["GND", "GROUND"])
  }

  /** The five names the trace-width check looks for. */
  predicate IsSupplyNet(n: Net) {
    NameIn(n, ["VCC", "VDD", "POWER", "GND", "GROUND"])
  }

  lemma SupplyIsPowerOrGround(n: Net)
    ensures IsSupplyNet(n) <==> IsPowerNet(n) || IsGroundNet(n)
  {
  }

  const PowerWidthAdvice := "Power and ground traces should be wider than signal traces (typically 0.5mm or more) to handle higher current. Make sure to set appropriate trace widths in Board view."

  /** Pattern 3: a single routing hint naming every power or ground net, in
      net order, when there is at least one. */
  function PowerWidthHints(b: Board): (r: seq<Suggestion>)
    ensures |r| <= 1
    ensures r != [] <==> exists k :: 0 <= k < |b.nets| && IsSupplyNet(b.nets[k])
    ensures r != [] ==> r[0].id == "power_width_hint" && r[0].kind == RoutingHint && r[0].action.None?
    ensures r != [] ==> r[0].message == PowerWidthAdvice && r[0].relatedIds == NetIds(Filter(b.nets, IsSupplyNet))
    ensures r != [] ==> forall id :: id in r[0].relatedIds <==> exists k :: 0 <= k < |b.nets| && IsSupplyNet(b.nets[k]) && b.nets[k].id == id
  {
    var supply := Filter(b.nets, IsSupplyNet);
    if |supply| > 0 then
      var ids := NetIds(supply);
      assert forall id :: id in ids ==> exists k :: 0 <= k < |supply| && supply[k].id == id;
      assert supply[0] in b.nets;
      [Suggestion("power_width_hint", RoutingHint, PowerWidthAdvice, None, ids)]
    else
      assert forall k :: 0 <= k < |b.nets| ==> !IsSupplyNet(b.nets[k]);
      []
  }

  const PowerNetHint := Suggestion(
    "suggest_power_net", ComponentHint,
    "Consider adding a power net (VCC/VDD) for your circuit. Most components need power to work.",
    Some(Action("add_net", map["name" := "VCC"])), [])

  const GroundNetHint := Suggestion(
    "suggest_ground_net", ComponentHint,
    "Consider adding a ground net (GND). All circuits need a common ground reference.",
    Some(Action("add_net", map["name" := "GND"])), [])

  function PowerNetHints(b: Board): seq<Suggestion> {
    if Filter(b.nets, IsPowerNet) == [] then [PowerNetHint] else []
  }

  function GroundNetHints(b: Board): seq<Suggestion> {
    if Filter(b.nets, IsGroundNet) == [] then [GroundNetHint] else []
  }

  predicate IsLed(c: Component) {
    Lower(c.kind) == "led"
  }

  predicate IsResistor(c: Component) {
    Lower(c.kind) == "resistor"
  }

  const LedAdvice := "LEDs need a current-limiting resistor to prevent damage. Add a resistor in series with your LED."

  const LedAction := Action("add_component", map["type" := "resistor", "value" := "220\U{03A9}"])

  /** The current-limiting-resistor hint for the given LEDs. */
  function LedHint(leds: seq<Component>): Suggestion {
    Suggestion(
      "suggest_led_resistor", ComponentHint, LedAdvice,
      Some(LedAction),
      ComponentIds(leds))
  }

  function LedHints(b: Board): seq<Suggestion> {
    var leds := Filter(b.components, IsLed);
    if leds != [] && Filter(b.components, IsResistor) == [] then [LedHint(leds)] else []
  }

  /** Python truthiness of the position: present and non-empty. */
  predicate IsPlaced(c: Component) {
    c.position.Some? && c.position.value != []
  }

  const PlacementNote := Suggestion(
    "suggest_placement", PlacementHint,
    "Group related components together for shorter traces and better layout.",
    None, [])

  function PlacementHints(b: Board): seq<Suggestion> {
    if |Filter(b.components, IsPlaced)| > 1 then [PlacementNote] else []
  }

  /** Specification of get_suggestions: the detectors' output in their fixed order. */
  function Suggestions(b: Board): seq<Suggestion> {
    FloatingInputs(b) + DecouplingHints(b) + PowerWidthHints(b)
      + PowerNetHints(b) + GroundNetHints(b) + LedHints(b) + PlacementHints(b)
  }

  method GetSuggestions(design: Design) returns (suggestions: seq<Suggestion>)
    ensures suggestions == Suggestions(design.board)
  {
    var b := design.board;
    var floating := DetectFloatingInputs(design);
    suggestions := floating;
    var decoupling := DetectMissingDecoupling(design);
    suggestions := suggestions + decoupling;
    suggestions := suggestions + PowerWidthHints(b);
    ghost var early := suggestions;
    var powerNets := Filter(b.nets, IsPowerNet);
    var groundNets := Filter(b.nets, IsGroundNet);
    if powerNets == [] {
      suggestions := suggestions + [PowerNetHint];
    }
    assert suggestions == early + PowerNetHints(b);
    if groundNets == [] {
      suggestions := suggestions + [GroundNetHint];
    }
    assert suggestions == early + PowerNetHints(b) + GroundNetHints(b);
    var leds := Filter(b.components, IsLed);
    var resistors := Filter(b.components, IsResistor);
    if leds != [] && resistors == [] {
      suggestions := suggestions + [LedHint(leds)];
    }
    assert suggestions == early + PowerNetHints(b) + GroundNetHints(b) + LedHints(b);
    var positioned := Filter(b.components, IsPlaced);
    if |positioned| > 1 {
      suggestions := suggestions + [PlacementNote];
    }
  }

  /** Some suggestion in the list carries this id. */
  predicate HasId(ss: seq<Suggestion>, id: string) {
    exists k :: 0 <= k < |ss| && ss[k].id == id
  }

  lemma HasIdConcat(a: seq<Suggestion>, b: seq<Suggestion>, id: string)
    ensures HasId(a + b, id) <==> HasId(a, id) || HasId(b, id)
  {
    if HasId(a + b, id) {
      var k :| 0 <= k < |a + b| && (a + b)[k].id == id;
      if k >= |a| {
        assert b[k - |a|].id == id;
      }
    }
    if HasId(a, id) {
      var k :| 0 <= k < |a| && a[k].id == id;
      assert (a + b)[k].id == id;
    }
    if HasId(b, id) {
      var k :| 0 <= k < |b| && b[k].id == id;
      assert (a + b)[|a| + k].id == id;
    }
  }

  /** The per-component hints have ids starting with "floating_input_" or
      "decoupling_", so none of them carries an id starting with 's' or 'p'. */
  lemma PerComponentIds(b: Board, id: string)
    requires id != [] && (id[0] == 's' || id[0] == 'p')
    ensures !HasId(FloatingInputs(b) + DecouplingHints(b), id)
  {
    var f := FloatingInputs(b);
    var d := DecouplingHints(b);
    forall k | 0 <= k < |f|
      ensures f[k].id != id
    {
      FloatingHintsSource(Filter(b.components, IsIc), b.nets, f[k]);
    }
    forall k | 0 <= k < |d|
      ensures d[k].id != id
    {
      assert d[k] == DecouplingHint(Filter(b.components, NeedsDecoupling)[k]);
    }
    HasIdConcat(f, d, id);
  }

  /** The output split at the fixed hints: the per-component and trace-width
      hints never carry a "suggest_" id. */
  lemma FixedHintIds(b: Board, id: string)
    requires id in ["suggest_power_net", "suggest_ground_net", "suggest_led_resistor", "suggest_placement"]
    ensures HasId(Suggestions(b), id) <==>
      HasId(PowerNetHints(b), id) || HasId(GroundNetHints(b), id) || HasId(LedHints(b), id) || HasId(PlacementHints(b), id)
  {
    var early := FloatingInputs(b) + DecouplingHints(b);
    PerComponentIds(b, id);
    HasIdConcat(early, PowerWidthHints(b), id);
    var a := early + PowerWidthHints(b);
    HasIdConcat(a, PowerNetHints(b), id);
    HasIdConcat(a + PowerNetHints(b), GroundNetHints(b), id);
    HasIdConcat(a + PowerNetHints(b) + GroundNetHints(b), LedHints(b), id);
    HasIdConcat(a + PowerNetHints(b) + GroundNetHints(b) + LedHints(b), PlacementHints(b), id);
  }

  lemma PowerNetPart(b: Board, id: string)
    ensures HasId(PowerNetHints(b), id) <==> id == "suggest_power_net" && Filter(b.nets, IsPowerNet) == []
  {
    if Filter(b.nets, IsPowerNet) == [] {
      assert PowerNetHints(b)[0].id == "suggest_power_net";
    }
  }

  lemma GroundNetPart(b: Board, id: string)
    ensures HasId(GroundNetHints(b), id) <==> id == "suggest_ground_net" && Filter(b.nets, IsGroundNet) == []
  {
    if Filter(b.nets, IsGroundNet) == [] {
      assert GroundNetHints(b)[0].id == "suggest_ground_net";
    }
  }

  lemma LedPart(b: Board, id: string)
    ensures HasId(LedHints(b), id) <==> id == "suggest_led_resistor" && LedHints(b) != []
  {
    if LedHints(b) != [] {
      assert LedHints(b)[0].id == "suggest_led_resistor";
    }
  }

  lemma PlacementPart(b: Board, id: string)
    ensures HasId(PlacementHints(b), id) <==> id == "suggest_placement" && |Filter(b.components, IsPlaced)| > 1
  {
    if |Filter(b.components, IsPlaced)| > 1 {
      assert PlacementHints(b)[0].id == "suggest_placement";
    }
  }

  /** The four fixed ids are pairwise distinct. */
  lemma FixedIdsDistinct()
    ensures "suggest_power_net" != "suggest_ground_net" && "suggest_power_net" != "suggest_led_resistor"
    ensures "suggest_power_net" != "suggest_placement" && "suggest_ground_net" != "suggest_led_resistor"
    ensures "suggest_ground_net" != "suggest_placement" && "suggest_led_resistor" != "suggest_placement"
  {
    assert "suggest_power_net"[9] != "suggest_placement"[9];
  }

  /** The power-net hint is emitted exactly when no net is named VCC, VDD or POWER. */
  lemma PowerNetHintIff(b: Board)
    ensures HasId(Suggestions(b), "suggest_power_net") <==> forall k :: 0 <= k < |b.nets| ==> !IsPowerNet(b.nets[k])
  {
    var id := "suggest_power_net";
    FixedHintIds(b, id);
    FixedIdsDistinct();
    PowerNetPart(b, id);
    GroundNetPart(b, id);
    LedPart(b, id);
    PlacementPart(b, id);
    FilterEmpty(b.nets, IsPowerNet);
  }

  /** The ground-net hint is emitted exactly when no net is named GND or GROUND. */
  lemma GroundNetHintIff(b: Board)
    ensures HasId(Suggestions(b), "suggest_ground_net") <==> forall k :: 0 <= k < |b.nets| ==> !IsGroundNet(b.nets[k])
  {
    var id := "suggest_ground_net";
    FixedHintIds(b, id);
    FixedIdsDistinct();
    PowerNetPart(b, id);
    GroundNetPart(b, id);
    LedPart(b, id);
    PlacementPart(b, id);
    FilterEmpty(b.nets, IsGroundNet);
  }

  /** The resistor hint is emitted exactly when there is an LED and no resistor. */
  lemma LedHintIff(b: Board)
    ensures HasId(Suggestions(b), "suggest_led_resistor") <==>
      (exists k :: 0 <= k < |b.components| && IsLed(b.components[k])) &&
      (forall k :: 0 <= k < |b.components| ==> !IsResistor(b.components[k]))
  {
    var id := "suggest_led_resistor";
    FixedHintIds(b, id);
    FixedIdsDistinct();
    PowerNetPart(b, id);
    GroundNetPart(b, id);
    LedPart(b, id);
    PlacementPart(b, id);
    FilterEmpty(b.components, IsLed);
    FilterEmpty(b.components, IsResistor);
  }

  /** A suggestion carrying the resistor hint's id is the hint for the LEDs of
      the board, in component order. */
  lemma LedHintNamesLeds(b: Board, s: Suggestion)
    requires s in Suggestions(b) && s.id == "suggest_led_resistor"
    ensures s == LedHint(Filter(b.components, IsLed))
  {
    var early := FloatingInputs(b) + DecouplingHints(b);
    PerComponentIds(b, s.id);
    assert forall k :: 0 <= k < |early| ==> early[k].id != s.id;
    assert s !in early;
    assert s !in PowerWidthHints(b);
    FixedIdsDistinct();
    assert s !in PowerNetHints(b) + GroundNetHints(b) + PlacementHints(b);
    assert s in LedHints(b);
  }

  /** Each id the resistor hint lists is the id of an LED of the board. */
  lemma LedHintIdIsLed(cs: seq<Component>, k: nat)
    requires k < |LedHint(Filter(cs, IsLed)).relatedIds|
    ensures exists j :: 0 <= j < |cs| && IsLed(cs[j]) && cs[j].id == LedHint(Filter(cs, IsLed)).relatedIds[k]
  {
    var leds := Filter(cs, IsLed);
    assert leds[k] in cs;
    var j :| 0 <= j < |cs| && cs[j] == leds[k];
    assert IsLed(cs[j]);
  }

  /** The placement hint is emitted exactly when more than one component is placed. */
  lemma PlacementHintIff(b: Board)
    ensures HasId(Suggestions(b), "suggest_placement") <==> |Filter(b.components, IsPlaced)| > 1
  {
    var id := "suggest_placement";
    FixedHintIds(b, id);
    FixedIdsDistinct();
    PowerNetPart(b, id);
    GroundNetPart(b, id);
    LedPart(b, id);
    PlacementPart(b, id);
  }

  // ---------------------------------------------------------------------------
  // Explaining an error

  /** A beginner-level explanation and four numbered steps to fix the error. */
  datatype Explanation = Explanation(explanation: string, steps: seq<string>)

  const UnconnectedExplanation := Explanation(
    "This net (connection) isn't properly wired. Every net needs at least 2 connections - one component pin connected to another. Think of it like a wire that needs to connect two points.",
    ["1. Find the net mentioned in the error",
     "2. Check which component pins should be connected",
     "3. Draw a wire (connection) between those pins",
     "4. Run validation again to confirm it's fixed"])

  const ShortExplanation := Explanation(
    "A short circuit means two different nets (connections) are accidentally touching. This can damage components. Think of it like two wires that shouldn't touch but do.",
    ["1. Find the pin or connection mentioned in the error",
     "2. Check if it's connected to multiple nets",
     "3. Remove the incorrect connection",
     "4. Make sure each pin connects to only one net"])

  const OutlineExplanation := Explanation(
    "Your board needs a defined shape (outline) before you can place components. The outline is like the edges of your PCB - everything must fit inside it.",
    ["1. Switch to Board view",
     "2. Use the 'Draw Board Outline' tool",
     "3. Draw a rectangle or custom shape for your board",
     "4. Make sure all components fit inside this outline"])

  const DefaultSteps := [
    "1. Read the error message carefully",
    "2. Find the components or connections mentioned",
    "3. Fix the issue based on the error description",
    "4. Run validation again"]

  const DefaultAdvice := ". Check the related components or connections mentioned in the error message and fix them according to the design rules."

  /** The fallback explanation quotes the error as given, not lower-cased. */
  function DefaultExplanation(error: string): (r: Explanation)
    ensures Contains(r.explanation, error)
    ensures |r.steps| == 4
  {
    ContainsInfix("This error means: ", error, DefaultAdvice);
    Explanation("This error means: " + error + DefaultAdvice, DefaultSteps)
  }

  predicate MentionsUnconnected(low: string) {
    Contains(low, "unconnected") || Contains(low, "not connected")
  }

  /** The source also tests "short circuit", which always contains "short". */
  predicate MentionsShort(low: string) {
    Contains(low, "short") || Contains(low, "short circuit")
  }

  predicate MentionsOutline(low: string) {
    Contains(low, "outline") || Contains(low, "boundary")
  }

  /** Keyword classification of the lower-cased error, first match wins. */
  function ExplainError(error: string): (r: Explanation)
    ensures |r.steps| == 4
  {
    var low := Lower(error);
    if MentionsUnconnected(low) then UnconnectedExplanation
    else if MentionsShort(low) then ShortExplanation
    else if MentionsOutline(low) then OutlineExplanation
    else DefaultExplanation(error)
  }

  lemma ShortTest(low: string)
    ensures MentionsShort(low) <==> Contains(low, "short")
  {
    if Contains(low, "short circuit") {
      assert "short" <= "short circuit";
      ContainsTransitive(low, "short circuit", "short");
    }
  }

  /** The four outcomes of the classifier and the order in which the keyword
      groups are tried. */
  lemma ExplainErrorCases(error: string)
    ensures var low := Lower(error);
      && (MentionsUnconnected(low) ==> ExplainError(error) == UnconnectedExplanation)
      && (!MentionsUnconnected(low) && Contains(low, "short") ==> ExplainError(error) == ShortExplanation)
      && (!MentionsUnconnected(low) && !Contains(low, "short") && MentionsOutline(low) ==> ExplainError(error) == OutlineExplanation)
      && (!MentionsUnconnected(low) && !Contains(low, "short") && !MentionsOutline(low) ==>
            ExplainError(error) == DefaultExplanation(error) && Contains(ExplainError(error).explanation, error))
  {
    ShortTest(Lower(error));
  }

  /** Only the fallback depends on the error's letter case. */
  lemma ExplainCaseInsensitive(e1: string, e2: string)
    requires Lower(e1) == Lower(e2)
    ensures ExplainError(e1).steps == ExplainError(e2).steps
    ensures ExplainError(e1) != ExplainError(e2) ==>
      ExplainError(e1) == DefaultExplanation(e1) && ExplainError(e2) == DefaultExplanation(e2)
  {
  }

  // ---------------------------------------------------------------------------
  // The next tutorial step

  datatype NextAction = NextAction(action: string, message: string, step: int)

  const PlaceComponents := NextAction("place_components", "Start by placing components on your schematic. Click 'Add Component' to get started.", 1)
  const WireComponents := NextAction("wire_components", "Now connect your components! Use the Wire tool to draw connections between component pins.", 2)
  const CreateBoard := NextAction("create_board", "Great! Your schematic is complete. Switch to Board view to place components and route traces.", 3)
  const PlaceFootprints := NextAction("place_footprints", "Place your component footprints on the board. Drag them to good positions.", 4)
  const RouteTraces := NextAction("route_traces", "Now route the traces! Connect the pads according to your schematic connections.", 5)

  /** Fewer components are placed than exist exactly when some component is unplaced. */
  lemma SomeUnplaced(cs: seq<Component>)
    ensures |Filter(cs, IsPlaced)| < |cs| <==> exists k :: 0 <= k < |cs| && !IsPlaced(cs[k])
  {
    FilterKeepsAll(cs, IsPlaced);
  }

  /** The decision ladder: the first rule that applies picks the step. */
  function SuggestNextAction(b: Board): (r: NextAction)
    ensures 1 <= r.step <= 5
    ensures r.step == 1 <==> b.components == []
    ensures r.step == 2 <==> b.components != [] && b.nets == []
    ensures r.step == 3 <==> b.components != [] && b.nets != [] && b.outline == []
    ensures r.step == 4 <==> (b.components != [] && b.nets != [] && b.outline != [] &&
      exists k :: 0 <= k < |b.components| && !IsPlaced(b.components[k]))
    ensures r.step == 5 <==> (b.components != [] && b.nets != [] && b.outline != [] &&
      forall k :: 0 <= k < |b.components| ==> IsPlaced(b.components[k]))
  {
    if b.components == [] then PlaceComponents
    else if b.components != [] && b.nets == [] then WireComponents
    else if b.nets != [] && b.outline == [] then CreateBoard
    else
      var positioned := Filter(b.components, IsPlaced);
      SomeUnplaced(b.components);
      if b.outline != [] && |positioned| < |b.components| then PlaceFootprints
      else RouteTraces
  }

  /** Each step comes with its own action name. */
  lemma NextActionNames(b: Board)
    ensures var r := SuggestNextAction(b);
      && (r.step == 1 ==> r.action == "place_components")
      && (r.step == 2 ==> r.action == "wire_components")
      && (r.step == 3 ==> r.action == "create_board")
      && (r.step == 4 ==> r.action == "place_footprints")
      && (r.step == 5 ==> r.action == "route_traces")
  {
  }
}
