/** The design-rule check of the backend's DRC service. It reads a design and
    builds an issue list in four stages: nets with fewer than two connection
    entries, connection ids listed by more than one entry (a short), a missing
    board outline, and (only when an outline exists) components without a
    position. No geometry, pin resolution or clearance is computed. */
module Drc {
  import opened Schema
  import opened Text
  import opened Seqs

  // ---------------------------------------------------------------------------
  // Stage 1: unconnected nets

  const UnconnectedIdPrefix := "unconnected_"
  const UnconnectedMessageTail := "' is not connected properly. Each net needs at least 2 connections."

  /** A net is under-connected when it lists fewer than two connection ids;
      the ids are counted raw, whether or not their components exist. */
  predicate IsUnderConnected(n: Net) {
    |n.connectionIds| < 2
  }

  /** Python's `net.name or net.id`: an absent or empty name falls back to the id. */
  function DisplayName(n: Net): string {
    if n.name.Some? && n.name.value != "" then n.name.value else n.id
  }

  function UnconnectedIssue(n: Net): Issue {
    Issue(
      id := UnconnectedIdPrefix + n.id,
      kind := UnconnectedNet,
      severity := Error,
      message := "Net '" + DisplayName(n) + UnconnectedMessageTail,
      relatedIds := [n.id],
      location := Some(map["net_id" := LocText(n.id)]))
  }

  function UnconnectedIssuesFor(under: seq<Net>): (r: seq<Issue>)
    ensures |r| == |under|
    ensures forall k :: 0 <= k < |r| ==> r[k] == UnconnectedIssue(under[k])
  {
    seq(|under|, k requires 0 <= k < |under| => UnconnectedIssue(under[k]))
  }

  /** Specification of stage 1: one issue per under-connected net, in net order. */
  function UnconnectedIssues(nets: seq<Net>): seq<Issue> {
    UnconnectedIssuesFor(Filter(nets, IsUnderConnected))
  }

  lemma UnconnectedStep(nets: seq<Net>, i: nat)
    requires i < |nets|
    ensures UnconnectedIssues(nets[..i + 1])
         == UnconnectedIssues(nets[..i]) + (if IsUnderConnected(nets[i]) then [UnconnectedIssue(nets[i])] else [])
  {
    assert nets[..i + 1] == nets[..i] + [nets[i]];
    FilterConcat(nets[..i], [nets[i]], IsUnderConnected);
    assert Filter([nets[i]], IsUnderConnected) == (if IsUnderConnected(nets[i]) then [nets[i]] else []) + Filter([], IsUnderConnected);
  }

  method CheckUnconnectedNets(design: Design) returns (issues: seq<Issue>)
    ensures issues == UnconnectedIssues(design.board.nets)
  {
    var nets := design.board.nets;
    issues := [];
    var i := 0;
    while i < |nets|
      invariant 0 <= i <= |nets|
      invariant issues == UnconnectedIssues(nets[..i])
    {
      var net := nets[i];
      if |net.connectionIds| < 2 {
        issues := issues + [UnconnectedIssue(net)];
      }
      UnconnectedStep(nets, i);
      i := i + 1;
    }
    assert nets[..|nets|] == nets;
  }

  /** Stage 1 as the source promises it: the issues correspond, in order, to
      the nets with fewer than two connection ids, and each is an error of type
      unconnected_net naming that net. */
  lemma UnconnectedIssuesShape(nets: seq<Net>)
    ensures |UnconnectedIssues(nets)| == |Filter(nets, IsUnderConnected)|
    ensures forall k :: 0 <= k < |UnconnectedIssues(nets)| ==>
      var iss := UnconnectedIssues(nets)[k];
      iss.kind == UnconnectedNet && iss.severity == Error &&
      exists n :: n in nets && |n.connectionIds| < 2 && iss.id == UnconnectedIdPrefix + n.id && iss.relatedIds == [n.id]
  {
    var r := UnconnectedIssues(nets);
    var u := Filter(nets, IsUnderConnected);
    forall k | 0 <= k < |r|
      ensures r[k].kind == UnconnectedNet && r[k].severity == Error
      ensures u[k] in nets && |u[k].connectionIds| < 2 && r[k].id == UnconnectedIdPrefix + u[k].id && r[k].relatedIds == [u[k].id]
    {
      assert r[k] == UnconnectedIssue(u[k]);
    }
  }

  /** A net with fewer than two connection ids has its issue in stage 1. */
  lemma UnderIsReported(nets: seq<Net>, i: nat)
    requires i < |nets| && |nets[i].connectionIds| < 2
    ensures UnconnectedIssue(nets[i]) in UnconnectedIssues(nets)
  {
    var u := Filter(nets, IsUnderConnected);
    var k :| 0 <= k < |u| && u[k] == nets[i];
    assert UnconnectedIssues(nets)[k] == UnconnectedIssue(nets[i]);
  }

  /** With distinct net ids, a stage-1 issue naming a net means that net has
      fewer than two connection ids. */
  lemma ReportedIsUnder(nets: seq<Net>, i: nat)
    requires DistinctNetIds(nets) && i < |nets| && UnconnectedIssue(nets[i]) in UnconnectedIssues(nets)
    ensures |nets[i].connectionIds| < 2
  {
    var r := UnconnectedIssues(nets);
    var u := Filter(nets, IsUnderConnected);
    var k :| 0 <= k < |r| && r[k] == UnconnectedIssue(nets[i]);
    assert r[k] == UnconnectedIssue(u[k]);
    assert u[k] in nets && IsUnderConnected(u[k]);
    var j :| 0 <= j < |nets| && nets[j] == u[k];
    assert UnconnectedIssue(nets[j]).id == UnconnectedIdPrefix + nets[j].id;
    PrefixCancel(UnconnectedIdPrefix, nets[j].id, nets[i].id);
  }

  /** When net ids are distinct, a net is reported exactly when it lists fewer
      than two connection ids. */
  lemma UnconnectedIff(nets: seq<Net>, i: nat)
    requires DistinctNetIds(nets) && i < |nets|
    ensures UnconnectedIssue(nets[i]) in UnconnectedIssues(nets) <==> |nets[i].connectionIds| < 2
  {
    if |nets[i].connectionIds| < 2 {
      UnderIsReported(nets, i);
    }
    if UnconnectedIssue(nets[i]) in UnconnectedIssues(nets) {
      ReportedIsUnder(nets, i);
    }
  }

  /** No two nets share an id. */
  ghost predicate DistinctNetIds(nets: seq<Net>) {
    forall i, j :: 0 <= i < j < |nets| ==> nets[i].id != nets[j].id
  }

  // ---------------------------------------------------------------------------
  // Stage 2: short circuits

  /** One connection entry: the net listing it and the connection id. */
  datatype Entry = Entry(net: string, conn: string)

  function NetEntries(n: Net): (r: seq<Entry>)
    ensures |r| == |n.connectionIds|
  {
    seq(|n.connectionIds|, j requires 0 <= j < |n.connectionIds| => Entry(n.id, n.connectionIds[j]))
  }

  /** All connection entries of all nets, in scanning order. */
  function Entries(nets: seq<Net>): seq<Entry>
    decreases |nets|
  {
    if nets == [] then [] else Entries(nets[..|nets| - 1]) + NetEntries(nets[|nets| - 1])
  }

  /** The distinct connection ids among some entries. */
  function ConnSet(es: seq<Entry>): set<string> {
    set k | 0 <= k < |es| :: es[k].conn
  }

  /** The scan's pin-to-net dictionary: the first entry listing a connection id
      claims it and is never replaced. */
  function OwnerMap(es: seq<Entry>): map<string, string>
    decreases |es|
  {
    if es == [] then map[]
    else
      var m := OwnerMap(es[..|es| - 1]);
      var e := es[|es| - 1];
      if e.conn in m then m else m[e.conn := e.net]
  }

  const ShortIdPrefix := "short_"
  const ShortMessageHead := "Potential short circuit: pin '"
  const ShortMessageMiddle := "' is connected to multiple nets ('"

  function ShortIssue(net: string, owner: string, conn: string): Issue {
    Issue(
      id := ShortIdPrefix + net + "_" + owner,
      kind := ShortCircuit,
      severity := Error,
      message := ShortMessageHead + conn + ShortMessageMiddle + net + "' and '" + owner + "').",
      relatedIds := [net, owner, conn],
      location := Some(map["pin" := LocText(conn), "net1" := LocText(net), "net2" := LocText(owner)]))
  }

  /** Issues for a scan of entries: each entry whose connection id is already
      owned yields one short naming its own net and the owner. */
  function ShortIssuesOf(es: seq<Entry>): seq<Issue>
    decreases |es|
  {
    if es == [] then []
    else
      var init := es[..|es| - 1];
      var e := es[|es| - 1];
      ShortIssuesOf(init) + (if e.conn in OwnerMap(init) then [ShortIssue(e.net, OwnerMap(init)[e.conn], e.conn)] else [])
  }

  /** Specification of stage 2. */
  function ShortCircuitIssues(nets: seq<Net>): seq<Issue> {
    ShortIssuesOf(Entries(nets))
  }

  /** One more scanned entry: the dictionary and the issues grow as the loop body does. */
  lemma ScanStep(done: seq<Entry>, e: Entry)
    ensures OwnerMap(done + [e]) == if e.conn in OwnerMap(done) then OwnerMap(done) else OwnerMap(done)[e.conn := e.net]
    ensures ShortIssuesOf(done + [e]) == ShortIssuesOf(done) +
      (if e.conn in OwnerMap(done) then [ShortIssue(e.net, OwnerMap(done)[e.conn], e.conn)] else [])
  {
    assert (done + [e])[..|done|] == done;
  }

  lemma EntriesStep(nets: seq<Net>, i: nat)
    requires i < |nets|
    ensures Entries(nets[..i + 1]) == Entries(nets[..i]) + NetEntries(nets[i])
  {
    assert nets[..i + 1][..i] == nets[..i];
  }

  /** The inner loop over one net's connection ids: it carries the scan's
      dictionary and issues from the entries before the net to the entries
      including it. */
  method ScanNet(net: Net, pinToNet: map<string, string>, issues: seq<Issue>, ghost before: seq<Entry>)
    returns (pinToNet': map<string, string>, issues': seq<Issue>)
    requires pinToNet == OwnerMap(before) && issues == ShortIssuesOf(before)
    ensures pinToNet' == OwnerMap(before + NetEntries(net))
    ensures issues' == ShortIssuesOf(before + NetEntries(net))
  {
    pinToNet', issues' := pinToNet, issues;
    ghost var done := before;
    var j := 0;
    while j < |net.connectionIds|
      invariant 0 <= j <= |net.connectionIds|
      invariant done == before + NetEntries(net)[..j]
      invariant pinToNet' == OwnerMap(done)
      invariant issues' == ShortIssuesOf(done)
    {
      var connId := net.connectionIds[j];
      ghost var e := Entry(net.id, connId);
      ScanStep(done, e);
      if connId in pinToNet' {
        var otherNet := pinToNet'[connId];
        issues' := issues' + [ShortIssue(net.id, otherNet, connId)];
      } else {
        pinToNet' := pinToNet'[connId := net.id];
      }
      assert NetEntries(net)[..j + 1] == NetEntries(net)[..j] + [e];
      done := done + [e];
      j := j + 1;
    }
    assert NetEntries(net)[..j] == NetEntries(net);
  }

  method CheckShortCircuits(design: Design) returns (issues: seq<Issue>)
    ensures issues == ShortCircuitIssues(design.board.nets)
  {
    var nets := design.board.nets;
    issues := [];
    var pinToNet: map<string, string> := map[];
    var i := 0;
    while i < |nets|
      invariant 0 <= i <= |nets|
      invariant pinToNet == OwnerMap(Entries(nets[..i]))
      invariant issues == ShortIssuesOf(Entries(nets[..i]))
    {
      pinToNet, issues := ScanNet(nets[i], pinToNet, issues, Entries(nets[..i]));
      EntriesStep(nets, i);
      i := i + 1;
    }
    assert nets[..|nets|] == nets;
  }

  /** The dictionary holds exactly the connection ids scanned so far. */
  lemma {:induction false} OwnerMapKeys(es: seq<Entry>)
    ensures OwnerMap(es).Keys == ConnSet(es)
    decreases |es|
  {
    if es != [] {
      var init := es[..|es| - 1];
      OwnerMapKeys(init);
      ConnSetSnoc(init, es[|es| - 1]);
      assert init + [es[|es| - 1]] == es;
    }
  }

  lemma ConnSetSnoc(es: seq<Entry>, e: Entry)
    ensures ConnSet(es + [e]) == ConnSet(es) + {e.conn}
  {
    var s := es + [e];
    forall c | c in ConnSet(s) ensures c in ConnSet(es) + {e.conn} {
      var k :| 0 <= k < |s| && s[k].conn == c;
      if k < |es| { assert es[k].conn == c; }
    }
    forall c | c in ConnSet(es) ensures c in ConnSet(s) {
      var k :| 0 <= k < |es| && es[k].conn == c;
      assert s[k].conn == c;
    }
    assert s[|es|].conn == e.conn;
  }

  /** Entry k is the first to list connection id c. */
  ghost predicate FirstListing(es: seq<Entry>, c: string, k: int) {
    0 <= k < |es| && es[k].conn == c && forall j :: 0 <= j < k ==> es[j].conn != c
  }

  /** The owner of a connection id is the net of the first entry listing it. */
  lemma {:induction false} OwnerIsFirstListing(es: seq<Entry>, c: string)
    requires c in OwnerMap(es)
    ensures exists k :: FirstListing(es, c, k) && OwnerMap(es)[c] == es[k].net
    decreases |es|
  {
    var init := es[..|es| - 1];
    var e := es[|es| - 1];
    OwnerMapKeys(init);
    if c in OwnerMap(init) {
      OwnerIsFirstListing(init, c);
      var k :| FirstListing(init, c, k) && OwnerMap(init)[c] == init[k].net;
      assert FirstListing(es, c, k);
    } else {
      assert e.conn == c;
      forall j | 0 <= j < |es| - 1 ensures es[j].conn != c {
        assert init[j].conn == es[j].conn;
      }
      assert FirstListing(es, c, |es| - 1);
    }
  }

  /** Later entries never replace an owner. */
  lemma {:induction false} OwnerNeverOverwritten(es: seq<Entry>, more: seq<Entry>, c: string)
    requires c in OwnerMap(es)
    ensures c in OwnerMap(es + more) && OwnerMap(es + more)[c] == OwnerMap(es)[c]
    decreases |more|
  {
    if more != [] {
      var shorter := more[..|more| - 1];
      OwnerNeverOverwritten(es, shorter, c);
      assert (es + more)[..|es + more| - 1] == es + shorter;
    } else {
      assert es + more == es;
    }
  }

  /** Every entry after the first listing of its connection id yields exactly
      one short: their number is the number of entries minus the number of
      distinct connection ids. */
  lemma {:induction false} ShortCount(es: seq<Entry>)
    ensures |ShortIssuesOf(es)| + |ConnSet(es)| == |es|
    decreases |es|
  {
    if es != [] {
      var init := es[..|es| - 1];
      var e := es[|es| - 1];
      assert init + [e] == es;
      ShortCount(init);
      OwnerMapKeys(init);
      ConnSetSnoc(init, e);
      if e.conn in ConnSet(init) {
        assert ConnSet(es) == ConnSet(init);
        assert |ShortIssuesOf(es)| == |ShortIssuesOf(init)| + 1;
      } else {
        assert |ConnSet(es)| == |ConnSet(init)| + 1;
        assert |ShortIssuesOf(es)| == |ShortIssuesOf(init)|;
      }
    }
  }

  /** A short, named by the listing net, the owner and the connection id. */
  ghost predicate ShortAt(es: seq<Entry>, k: int, iss: Issue) {
    0 <= k < |es| && es[k].conn in ConnSet(es[..k]) && es[k].conn in OwnerMap(es) &&
    iss == ShortIssue(es[k].net, OwnerMap(es)[es[k].conn], es[k].conn)
  }

  /** Each repeated listing of a connection id gives a short that names the
      listing net, the first owner and the connection id. */
  lemma {:induction false} RepeatGivesShort(es: seq<Entry>, k: nat)
    requires k < |es| && es[k].conn in ConnSet(es[..k])
    ensures es[k].conn in OwnerMap(es) && ShortIssue(es[k].net, OwnerMap(es)[es[k].conn], es[k].conn) in ShortIssuesOf(es)
    decreases |es|
  {
    var init := es[..|es| - 1];
    var e := es[|es| - 1];
    assert init + [e] == es;
    ScanStep(init, e);
    OwnerMapKeys(init);
    if k < |es| - 1 {
      assert init[..k] == es[..k] && init[k] == es[k];
      RepeatGivesShort(init, k);
      OwnerNeverOverwritten(init, [e], es[k].conn);
    } else {
      assert es[..k] == init;
      OwnerNeverOverwritten(init, [e], e.conn);
    }
  }

  /** Every short arises from a repeated listing. */
  lemma {:induction false} ShortComesFromRepeat(es: seq<Entry>, iss: Issue)
    requires iss in ShortIssuesOf(es)
    ensures exists k :: ShortAt(es, k, iss)
    decreases |es|
  {
    var init := es[..|es| - 1];
    var e := es[|es| - 1];
    var last := |es| - 1;
    assert init + [e] == es;
    ScanStep(init, e);
    OwnerMapKeys(init);
    if iss in ShortIssuesOf(init) {
      ShortComesFromRepeat(init, iss);
      var k :| ShortAt(init, k, iss);
      assert init[..k] == es[..k] && init[k] == es[k];
      OwnerNeverOverwritten(init, [e], es[k].conn);
      assert ShortAt(es, k, iss);
    } else {
      assert es[..last] == init;
      OwnerNeverOverwritten(init, [e], e.conn);
      assert ShortAt(es, last, iss);
    }
  }

  /** Every issue of stage 2 is a short-circuit error. */
  lemma ShortIssuesAreErrors(nets: seq<Net>)
    ensures forall k :: 0 <= k < |ShortCircuitIssues(nets)| ==>
      ShortCircuitIssues(nets)[k].kind == ShortCircuit && ShortCircuitIssues(nets)[k].severity == Error
  {
    var ss := ShortCircuitIssues(nets);
    forall k | 0 <= k < |ss| ensures ss[k].kind == ShortCircuit && ss[k].severity == Error {
      ShortComesFromRepeat(Entries(nets), ss[k]);
    }
  }

  /** The number of connection entries across all nets. */
  function TotalConnections(nets: seq<Net>): nat
    decreases |nets|
  {
    if nets == [] then 0 else TotalConnections(nets[..|nets| - 1]) + |nets[|nets| - 1].connectionIds|
  }

  /** The distinct connection ids across all nets. */
  ghost function AllConnectionIds(nets: seq<Net>): set<string> {
    set i, j | 0 <= i < |nets| && 0 <= j < |nets[i].connectionIds| :: nets[i].connectionIds[j]
  }

  lemma {:induction false} EntriesSummary(nets: seq<Net>)
    ensures |Entries(nets)| == TotalConnections(nets)
    ensures ConnSet(Entries(nets)) == AllConnectionIds(nets)
    decreases |nets|
  {
    if nets != [] {
      var init := nets[..|nets| - 1];
      var n := nets[|nets| - 1];
      EntriesSummary(init);
      var es := Entries(nets);
      var a := Entries(init);
      forall c | c in ConnSet(es) ensures c in AllConnectionIds(nets) {
        var k :| 0 <= k < |es| && es[k].conn == c;
        if k < |a| {
          assert a[k] == es[k];
          assert c in AllConnectionIds(init);
          var i, j :| 0 <= i < |init| && 0 <= j < |init[i].connectionIds| && init[i].connectionIds[j] == c;
          assert nets[i] == init[i];
        } else {
          assert es[k] == NetEntries(n)[k - |a|];
          assert nets[|nets| - 1].connectionIds[k - |a|] == c;
        }
      }
      forall c | c in AllConnectionIds(nets) ensures c in ConnSet(es) {
        var i, j :| 0 <= i < |nets| && 0 <= j < |nets[i].connectionIds| && nets[i].connectionIds[j] == c;
        if i < |nets| - 1 {
          assert init[i] == nets[i];
          assert c in AllConnectionIds(init);
          var k :| 0 <= k < |a| && a[k].conn == c;
          assert es[k] == a[k];
        } else {
          assert es[|a| + j] == NetEntries(n)[j];
        }
      }
    }
  }

  /** Stage 2's count in terms of the nets: total entries minus distinct ids. */
  lemma ShortCircuitCount(nets: seq<Net>)
    ensures |ShortCircuitIssues(nets)| == TotalConnections(nets) - |AllConnectionIds(nets)|
  {
    ShortCount(Entries(nets));
    EntriesSummary(nets);
  }

  // ---------------------------------------------------------------------------
  // Stages 3 and 4: board outline and component positions

  const OutlineIdPrefix := "issue_"
  const OutlineMessage := "Board outline is missing. Define board boundaries first."
  const NoPositionIdPrefix := "no_position_"
  const NoPositionMessageTail := "' has no position defined."

  /** The board-edge error for a missing outline; its id counts the issues
      emitted before it. */
  function MissingOutlineIssue(before: nat): Issue {
    Issue(
      id := OutlineIdPrefix + DecimalString(before),
      kind := BoardEdge,
      severity := Error,
      message := OutlineMessage,
      relatedIds := [])
  }

  predicate HasNoPosition(c: Component) {
    c.position.None?
  }

  /** The warning for an unplaced component; type and location keep their defaults. */
  function NoPositionIssue(c: Component): Issue {
    Issue(
      id := NoPositionIdPrefix + c.id,
      severity := Warning,
      message := "Component '" + c.id + NoPositionMessageTail,
      relatedIds := [c.id])
  }

  function NoPositionIssuesFor(unplaced: seq<Component>): (r: seq<Issue>)
    ensures |r| == |unplaced|
    ensures forall k :: 0 <= k < |r| ==> r[k] == NoPositionIssue(unplaced[k])
  {
    seq(|unplaced|, k requires 0 <= k < |unplaced| => NoPositionIssue(unplaced[k]))
  }

  /** Specification of stage 4: one warning per component without a position. */
  function PositionIssues(components: seq<Component>): seq<Issue> {
    NoPositionIssuesFor(Filter(components, HasNoPosition))
  }

  method CheckComponentsInBounds(design: Design) returns (issues: seq<Issue>)
    ensures issues == PositionIssues(design.board.components)
  {
    var components := design.board.components;
    issues := [];
    var i := 0;
    while i < |components|
      invariant 0 <= i <= |components|
      invariant issues == PositionIssues(components[..i])
    {
      var component := components[i];
      if component.position.None? {
        issues := issues + [NoPositionIssue(component)];
      }
      assert components[..i + 1] == components[..i] + [component];
      FilterConcat(components[..i], [component], HasNoPosition);
      assert Filter([component], HasNoPosition) == (if HasNoPosition(component) then [component] else []) + Filter([], HasNoPosition);
      i := i + 1;
    }
    assert components[..|components|] == components;
  }

  // ---------------------------------------------------------------------------
  // The whole check

  /** The issues of stages 3 and 4: the board-edge error when the outline is
      missing, otherwise the position warnings. */
  function OutlineStageIssues(b: Board, before: nat): seq<Issue> {
    if b.outline == [] then [MissingOutlineIssue(before)] else PositionIssues(b.components)
  }

  /** Specification of the full check. */
  function DrcReport(b: Board): seq<Issue> {
    var before := UnconnectedIssues(b.nets) + ShortCircuitIssues(b.nets);
    before + OutlineStageIssues(b, |before|)
  }

  /** Runs the four stages in order. The design is a value: nothing is modified. */
  method CheckDesign(design: Design) returns (issues: seq<Issue>)
    ensures issues == DrcReport(design.board)
  {
    var unconnected := CheckUnconnectedNets(design);
    var shorts := CheckShortCircuits(design);
    issues := unconnected + shorts;
    if design.board.outline == [] {
      issues := issues + [MissingOutlineIssue(|issues|)];
    }
    if design.board.outline != [] {
      var placement := CheckComponentsInBounds(design);
      issues := issues + placement;
    }
  }

  /** Which stage produced an issue, read from the issue itself. */
  function Stage(iss: Issue): nat {
    if iss.kind == ShortCircuit then 1
    else if iss.kind == BoardEdge || iss.severity == Warning then 2
    else 0
  }

  lemma EarlyStages(nets: seq<Net>)
    ensures forall k :: 0 <= k < |UnconnectedIssues(nets)| ==> Stage(UnconnectedIssues(nets)[k]) == 0
    ensures forall k :: 0 <= k < |ShortCircuitIssues(nets)| ==> Stage(ShortCircuitIssues(nets)[k]) == 1
  {
    UnconnectedIssuesShape(nets);
    ShortIssuesAreErrors(nets);
  }

  lemma LateStage(b: Board, before: nat)
    ensures forall k :: 0 <= k < |OutlineStageIssues(b, before)| ==> Stage(OutlineStageIssues(b, before)[k]) == 2
  {
  }

  /** Three blocks of issues, each from one stage, concatenated. */
  lemma BlockStages(us: seq<Issue>, ss: seq<Issue>, ts: seq<Issue>)
    requires forall k :: 0 <= k < |us| ==> Stage(us[k]) == 0
    requires forall k :: 0 <= k < |ss| ==> Stage(ss[k]) == 1
    requires forall k :: 0 <= k < |ts| ==> Stage(ts[k]) == 2
    ensures forall k :: 0 <= k < |us + ss + ts| ==>
      Stage((us + ss + ts)[k]) == (if k < |us| then 0 else if k < |us| + |ss| then 1 else 2)
  {
    var r := us + ss + ts;
    forall k | 0 <= k < |r| ensures Stage(r[k]) == (if k < |us| then 0 else if k < |us| + |ss| then 1 else 2) {
      if k < |us| {
        assert r[k] == us[k];
      } else if k < |us| + |ss| {
        assert r[k] == ss[k - |us|];
      } else {
        assert r[k] == ts[k - |us| - |ss|];
      }
    }
  }

  /** The report lists stage-1 issues, then stage-2 issues, then the outline or
      position issues, each stage's block contiguous. */
  lemma ReportStages(b: Board)
    ensures var r := DrcReport(b);
      var u := |UnconnectedIssues(b.nets)|;
      var s := |ShortCircuitIssues(b.nets)|;
      u + s <= |r| &&
      forall k :: 0 <= k < |r| ==> Stage(r[k]) == (if k < u then 0 else if k < u + s then 1 else 2)
  {
    var us := UnconnectedIssues(b.nets);
    var ss := ShortCircuitIssues(b.nets);
    var ts := OutlineStageIssues(b, |us + ss|);
    EarlyStages(b.nets);
    LateStage(b, |us + ss|);
    BlockStages(us, ss, ts);
    assert DrcReport(b) == us + ss + ts;
  }

  /** Stages never go backwards along the report. */
  lemma ReportOrder(b: Board)
    ensures var r := DrcReport(b);
      forall j, k :: 0 <= j <= k < |r| ==> Stage(r[j]) <= Stage(r[k])
  {
    ReportStages(b);
  }

  /** A missing outline gives exactly one board_edge error, the last issue,
      with no related ids and an id counting the issues before it; an outline
      gives none. */
  lemma OutlineIssue(b: Board)
    ensures var r := DrcReport(b);
      (exists k :: 0 <= k < |r| && r[k].kind == BoardEdge) <==> b.outline == []
    ensures var r := DrcReport(b);
      b.outline == [] ==>
        r[|r| - 1] == MissingOutlineIssue(|r| - 1) &&
        r[|r| - 1].relatedIds == [] && r[|r| - 1].severity == Error &&
        forall k :: 0 <= k < |r| - 1 ==> r[k].kind != BoardEdge
  {
    var us := UnconnectedIssues(b.nets);
    var ss := ShortCircuitIssues(b.nets);
    var ts := OutlineStageIssues(b, |us + ss|);
    var r := DrcReport(b);
    assert r == (us + ss) + ts;
    EarlyStages(b.nets);
    forall k | 0 <= k < |us + ss| ensures r[k].kind != BoardEdge {
      if k < |us| {
        assert r[k] == us[k];
      } else {
        assert r[k] == ss[k - |us|];
      }
    }
    if b.outline != [] {
      forall k | |us + ss| <= k < |r| ensures r[k].kind != BoardEdge {
        assert r[k] == ts[k - |us + ss|];
      }
    } else {
      assert r[|r| - 1] == MissingOutlineIssue(|us + ss|);
    }
  }

  /** No earlier issue shares the board-edge issue's id: ids of the first two
      stages start with "unconnected_" or "short_", never with "issue_". */
  lemma OutlineIssueIdUnique(b: Board)
    requires b.outline == []
    ensures var r := DrcReport(b);
      forall k :: 0 <= k < |r| - 1 ==> r[k].id != r[|r| - 1].id
  {
    var us := UnconnectedIssues(b.nets);
    var ss := ShortCircuitIssues(b.nets);
    var r := DrcReport(b);
    assert r == us + ss + [MissingOutlineIssue(|us + ss|)];
    forall k | 0 <= k < |r| - 1 ensures r[k].id != r[|r| - 1].id {
      assert r[|r| - 1].id[0] == 'i';
      if k < |us| {
        assert r[k] == us[k] == UnconnectedIssue(Filter(b.nets, IsUnderConnected)[k]);
        assert r[k].id[0] == 'u';
      } else {
        assert r[k] == ss[k - |us|];
        ShortComesFromRepeat(Entries(b.nets), r[k]);
        assert r[k].id[0] == 's';
      }
    }
  }

  /** No two components share an id. */
  ghost predicate DistinctComponentIds(cs: seq<Component>) {
    forall i, j :: 0 <= i < j < |cs| ==> cs[i].id != cs[j].id
  }

  /** With an outline, the issues after the first two stages are warnings, one
      per component lacking a position, in component order, with type and
      location left at their defaults. */
  lemma PositionWarnings(b: Board)
    requires b.outline != []
    ensures var r := DrcReport(b);
      var tail := r[|UnconnectedIssues(b.nets)| + |ShortCircuitIssues(b.nets)|..];
      var unplaced := Filter(b.components, HasNoPosition);
      |tail| == |unplaced| &&
      forall k :: 0 <= k < |tail| ==>
        tail[k].severity == Warning && tail[k].kind == UnconnectedNet && tail[k].location.None? &&
        tail[k].relatedIds == [unplaced[k].id] && unplaced[k].position.None?
  {
    var r := DrcReport(b);
    var before := UnconnectedIssues(b.nets) + ShortCircuitIssues(b.nets);
    assert r[|before|..] == PositionIssues(b.components);
  }

  /** Every position warning names a component without a position. */
  lemma PositionIssueSource(cs: seq<Component>, iss: Issue)
    requires iss in PositionIssues(cs)
    ensures exists j :: 0 <= j < |cs| && cs[j].position.None? && iss == NoPositionIssue(cs[j])
  {
    var pos := PositionIssues(cs);
    var f := Filter(cs, HasNoPosition);
    var k :| 0 <= k < |pos| && pos[k] == iss;
    assert pos[k] == NoPositionIssue(f[k]);
    assert f[k] in cs && HasNoPosition(f[k]);
    var j :| 0 <= j < |cs| && cs[j] == f[k];
  }

  /** A component without a position has its warning among the position issues. */
  lemma UnplacedIsWarned(cs: seq<Component>, i: nat)
    requires i < |cs| && cs[i].position.None?
    ensures NoPositionIssue(cs[i]) in PositionIssues(cs)
  {
    var f := Filter(cs, HasNoPosition);
    var k :| 0 <= k < |f| && f[k] == cs[i];
    assert PositionIssues(cs)[k] == NoPositionIssue(cs[i]);
  }

  /** With distinct component ids, a warning naming a component means that
      component has no position. */
  lemma WarnedIsUnplaced(cs: seq<Component>, i: nat)
    requires DistinctComponentIds(cs) && i < |cs| && NoPositionIssue(cs[i]) in PositionIssues(cs)
    ensures cs[i].position.None?
  {
    PositionIssueSource(cs, NoPositionIssue(cs[i]));
    var j :| 0 <= j < |cs| && cs[j].position.None? && NoPositionIssue(cs[i]) == NoPositionIssue(cs[j]);
    assert NoPositionIssue(cs[j]).id == NoPositionIdPrefix + cs[j].id;
    PrefixCancel(NoPositionIdPrefix, cs[j].id, cs[i].id);
  }

  /** With an outline and distinct component ids, a component is warned about
      exactly when it has no position. */
  lemma PositionWarningIff(b: Board, i: nat)
    requires b.outline != [] && DistinctComponentIds(b.components) && i < |b.components|
    ensures NoPositionIssue(b.components[i]) in DrcReport(b) <==> b.components[i].position.None?
  {
    var before := UnconnectedIssues(b.nets) + ShortCircuitIssues(b.nets);
    var pos := PositionIssues(b.components);
    assert DrcReport(b) == before + pos;
    var iss := NoPositionIssue(b.components[i]);
    if b.components[i].position.None? {
      UnplacedIsWarned(b.components, i);
    }
    if iss in DrcReport(b) {
      NoPositionNotEarly(b.nets, iss);
      WarnedIsUnplaced(b.components, i);
    }
  }

  /** A warning never comes from the first two stages. */
  lemma NoPositionNotEarly(nets: seq<Net>, iss: Issue)
    requires iss.severity == Warning && iss.kind == UnconnectedNet
    ensures iss !in UnconnectedIssues(nets) + ShortCircuitIssues(nets)
  {
    EarlyStages(nets);
    var before := UnconnectedIssues(nets) + ShortCircuitIssues(nets);
    forall k | 0 <= k < |before| ensures before[k] != iss {
      if k < |UnconnectedIssues(nets)| {
        assert Stage(before[k]) == 0;
      } else {
        assert before[k] == ShortCircuitIssues(nets)[k - |UnconnectedIssues(nets)|];
      }
    }
  }

  /** Two nets each listing only pin R1.1: both nets are unconnected, the
      second net's listing is a short against the first, and the missing
      outline comes last as issue_3. */
  lemma SharedPinScenario(b: Board)
    requires b == Board(nets := [Net("net1", ["R1.1"]), Net("net2", ["R1.1"])])
    ensures DrcReport(b) ==
      [UnconnectedIssue(b.nets[0]), UnconnectedIssue(b.nets[1]), ShortIssue("net2", "net1", "R1.1"), MissingOutlineIssue(3)]
  {
    SharedPinUnconnected(b.nets[0], b.nets[1]);
    SharedPinShorts(b.nets[0], b.nets[1]);
    assert b.nets == [b.nets[0], b.nets[1]];
  }

  lemma SharedPinUnconnected(n1: Net, n2: Net)
    requires n1 == Net("net1", ["R1.1"]) && n2 == Net("net2", ["R1.1"])
    ensures UnconnectedIssues([n1, n2]) == [UnconnectedIssue(n1), UnconnectedIssue(n2)]
  {
    var nets := [n1, n2];
    assert Filter(nets, IsUnderConnected) == nets by {
      assert nets[1..][1..] == [];
    }
  }

  /** The two nets' pin listings, in scanning order. */
  lemma SharedPinEntries(n1: Net, n2: Net)
    requires n1 == Net("net1", ["R1.1"]) && n2 == Net("net2", ["R1.1"])
    ensures Entries([n1, n2]) == [Entry("net1", "R1.1"), Entry("net2", "R1.1")]
  {
    assert NetEntries(n1) == [Entry("net1", "R1.1")];
    assert NetEntries(n2) == [Entry("net2", "R1.1")];
    EntriesStep([n1, n2], 0);
    EntriesStep([n1, n2], 1);
    assert [n1, n2][..0] == [] && [n1, n2][..1] == [n1] && [n1, n2][..2] == [n1, n2];
  }

  lemma SharedPinShorts(n1: Net, n2: Net)
    requires n1 == Net("net1", ["R1.1"]) && n2 == Net("net2", ["R1.1"])
    ensures ShortCircuitIssues([n1, n2]) == [ShortIssue("net2", "net1", "R1.1")]
  {
    var e1, e2 := Entry("net1", "R1.1"), Entry("net2", "R1.1");
    SharedPinEntries(n1, n2);
    ScanStep([], e1);
    assert [] + [e1] == [e1];
    ScanStep([e1], e2);
    assert [e1] + [e2] == [e1, e2];
  }

  /** A pin listed twice by the same net is a short of that net against itself. */
  lemma RepeatWithinNetScenario()
    ensures var n := Net("N", ["A.1", "A.1"]);
      ShortCircuitIssues([n]) == [ShortIssue("N", "N", "A.1")]
  {
    var n := Net("N", ["A.1", "A.1"]);
    assert [n][..0] == [];
    assert NetEntries(n) == [Entry("N", "A.1"), Entry("N", "A.1")];
    assert Entries([n]) == Entries([]) + NetEntries(n);
    var es := Entries([n]);
    assert es == [Entry("N", "A.1"), Entry("N", "A.1")];
    assert es[..1] == [Entry("N", "A.1")];
    assert [Entry("N", "A.1")][..0] == [];
  }
}
