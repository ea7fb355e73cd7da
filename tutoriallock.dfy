/** Tool locking in tutorial mode: a fixed table from tutorial step to the
    tools that step allows and the hint shown for a locked tool. The step is
    the result of parsing the URL's step parameter, None when that parse
    yields NaN. */
module TutorialLock {
  import opened Schema

  datatype ToolId = Select | Place | Wire | Delete | Route | Measure

  datatype LockConfig = LockConfig(allowedTools: seq<ToolId>, lockedMessage: Option<string>)

  const Step1 := LockConfig([Select], Some("First, choose a template to get started"))
  const Step2 := LockConfig([Select, Place], Some("Place components on the canvas. Use the component library on the left."))
  const Step3 := LockConfig([Select, Place, Wire], Some("Now connect your components! Use the Wire tool to draw connections."))
  const Step4 := LockConfig([Select, Place, Route], Some("Switch to Board view and route traces between component pads."))
  const Step5 := LockConfig([Select, Place, Wire, Route, Delete], Some("Final step: Run validation and export your design!"))

  /** The configuration table; steps other than 1 to 5 have no entry. */
  function StepToolConfig(step: int): (r: Option<LockConfig>)
    ensures r.Some? <==> 1 <= step <= 5
    ensures r.Some? ==> Select in r.value.allowedTools && Measure !in r.value.allowedTools
    ensures r.Some? ==> r.value.lockedMessage.Some? && r.value.lockedMessage.value != ""
  {
    if step == 1 then Some(Step1)
    else if step == 2 then Some(Step2)
    else if step == 3 then Some(Step3)
    else if step == 4 then Some(Step4)
    else if step == 5 then Some(Step5)
    else None
  }

  /** The lookup `STEP_TOOL_CONFIG[step]`; NaN finds no entry. */
  function ConfigFor(step: Option<int>): Option<LockConfig> {
    match step
    case None => None
    case Some(n) => StepToolConfig(n)
  }

  /** Tutorial mode at a step other than 0. */
  predicate Active(isTutorial: bool, step: Option<int>) {
    isTutorial && step != Some(0)
  }

  function IsToolLocked(isTutorial: bool, step: Option<int>, tool: ToolId): (locked: bool)
    ensures locked <==> Active(isTutorial, step) && ConfigFor(step).Some? && tool !in ConfigFor(step).value.allowedTools
  {
    if !Active(isTutorial, step) then false
    else
      match ConfigFor(step)
      case None => false
      case Some(config) => tool !in config.allowedTools
  }

  /** `config?.lockedMessage || null`: an absent or empty message is null. */
  function GetLockedMessage(isTutorial: bool, step: Option<int>): (r: Option<string>)
    ensures r.Some? ==> r.value != ""
    ensures r.Some? ==> Active(isTutorial, step) && ConfigFor(step).Some? && r == ConfigFor(step).value.lockedMessage
    ensures (Active(isTutorial, step) && ConfigFor(step).Some? && ConfigFor(step).value.lockedMessage.Some? &&
             ConfigFor(step).value.lockedMessage.value != "") ==> r == ConfigFor(step).value.lockedMessage
  {
    if !Active(isTutorial, step) then None
    else
      match ConfigFor(step)
      case None => None
      case Some(config) =>
        if config.lockedMessage.Some? && config.lockedMessage.value != "" then config.lockedMessage else None
  }

  /** Outside tutorial mode, at step 0, at NaN and at any step without an
      entry, nothing is locked and there is no message. */
  lemma NothingLockedWithoutEntry(isTutorial: bool, step: Option<int>, tool: ToolId)
    requires !isTutorial || step.None? || !(1 <= step.value <= 5)
    ensures !IsToolLocked(isTutorial, step, tool)
    ensures GetLockedMessage(isTutorial, step) == None
  {
  }

  /** Select is never locked. */
  lemma SelectNeverLocked(isTutorial: bool, step: Option<int>)
    ensures !IsToolLocked(isTutorial, step, Select)
  {
  }

  /** Step 1 locks everything but select; step 5 locks only measure. */
  lemma FirstAndLastSteps(tool: ToolId)
    ensures IsToolLocked(true, Some(1), tool) <==> tool != Select
    ensures IsToolLocked(true, Some(5), tool) <==> tool == Measure
  {
  }

  /** A message is shown exactly at the configured steps of tutorial mode, and
      whenever some tool is locked there is a message to explain it. */
  lemma MessageIffConfigured(isTutorial: bool, step: Option<int>, tool: ToolId)
    ensures GetLockedMessage(isTutorial, step).Some? <==> isTutorial && step.Some? && 1 <= step.value <= 5
    ensures IsToolLocked(isTutorial, step, tool) ==> GetLockedMessage(isTutorial, step).Some?
  {
  }

  /** The wire tool is locked at steps 1, 2 and 4: step 4 takes away again
      the tool that step 3 gave. */
  lemma WireLockedSteps(step: int)
    requires 1 <= step <= 5
    ensures IsToolLocked(true, Some(step), Wire) <==> step == 1 || step == 2 || step == 4
  {
  }

  /** The hint shown at each tutorial step is that step's configured text. */
  lemma LockedMessageTexts()
    ensures GetLockedMessage(true, Some(1)) == Some("First, choose a template to get started")
    ensures GetLockedMessage(true, Some(2)) == Some("Place components on the canvas. Use the component library on the left.")
    ensures GetLockedMessage(true, Some(3)) == Some("Now connect your components! Use the Wire tool to draw connections.")
    ensures GetLockedMessage(true, Some(4)) == Some("Switch to Board view and route traces between component pads.")
    ensures GetLockedMessage(true, Some(5)) == Some("Final step: Run validation and export your design!")
  {
  }
}
