/**
 * The application shell: which screen is shown, what the user has chosen
 * so far, and the handlers that move between screens and start a run in
 * the terminal.
 */
module App {
  import opened Types
  import opened Lists
  import Selection

  /** The screens the shell switches on. Members of the screen enumeration
      the shell has no case for are `Other`. */
  datatype Screen =
    | Home
    | Install
    | Wipe
    | AdvancedWipeSelection
    | Mount
    | Settings
    | ConfirmInstall
    | ConfirmWipe
    | ConfirmAdvancedWipe
    | Processing
    | BackupError
    | Other(name: string)

  /** `goBack` as a destination: the four confirmation-chain screens step
      back one level; every other screen goes home. */
  function BackTarget(s: Screen): (t: Screen)
    ensures t != Processing
    ensures t == Home <==> s !in {ConfirmInstall, ConfirmWipe, AdvancedWipeSelection, ConfirmAdvancedWipe}
    ensures s == ConfirmInstall ==> t == Screen.Install
    ensures s == ConfirmWipe || s == AdvancedWipeSelection ==> t == Screen.Wipe
    ensures s == ConfirmAdvancedWipe ==> t == AdvancedWipeSelection
  {
    match s
    case ConfirmInstall => Screen.Install
    case ConfirmWipe => Screen.Wipe
    case AdvancedWipeSelection => Screen.Wipe
    case ConfirmAdvancedWipe => AdvancedWipeSelection
    case _ => Home
  }

  /** The forward steps of the confirmation chains: picking a package on
      the install screen, the two buttons of the wipe screen, and confirming
      a selection on the advanced-wipe screen. */
  predicate ForwardStep(from: Screen, to: Screen)
  {
    || (from == Screen.Install && to == ConfirmInstall)
    || (from == Screen.Wipe && to == ConfirmWipe)
    || (from == Screen.Wipe && to == AdvancedWipeSelection)
    || (from == AdvancedWipeSelection && to == ConfirmAdvancedWipe)
  }

  /** Back undoes exactly the forward steps: after a forward step it
      returns to where the step started, and wherever it does not go home
      it retraces one. */
  lemma BackUndoesForward(from: Screen, to: Screen)
    ensures ForwardStep(from, to) ==> BackTarget(to) == from
    ensures BackTarget(to) != Home ==> ForwardStep(BackTarget(to), to)
  {
  }

  /** Pressing back at most three times reaches the home screen from
      anywhere: the longest chain is the advanced-wipe confirmation. */
  lemma BackReachesHome(s: Screen)
    ensures BackTarget(BackTarget(BackTarget(s))) == Home
    ensures s != ConfirmAdvancedWipe ==> BackTarget(BackTarget(s)) == Home
  {
  }

  /** The screen actually rendered: a screen without a case renders as
      home. */
  function Rendered(s: Screen): (r: Screen)
    ensures r.Other? == false
    ensures !s.Other? ==> r == s
    ensures s.Other? ==> r == Home
  {
    if s.Other? then Home else s
  }

  /** The back/home footer is shown on every screen except the running
      terminal. */
  function ShowsFooter(s: Screen): (b: bool)
    ensures b <==> s != Processing
  {
    s != Processing
  }

  /** Every screen back leads to keeps the footer, and so does every
      screen that is rendered for a screen without a case. */
  lemma FooterAfterBack(s: Screen)
    ensures ShowsFooter(BackTarget(s))
    ensures s.Other? ==> ShowsFooter(Rendered(s))
  {
  }

  /** What the shell passes to the terminal. */
  datatype TerminalProps = TerminalProps(
    actionType: Option<ActionType>,
    fileName: Option<string>,
    partitions: Option<seq<string>>,
    mountOps: Option<seq<MountOp>>)

  /** The terminal gets the partition list only for an advanced wipe and
      the mount operations only for a mount run. */
  function PropsFor(actionType: Option<ActionType>, selectedZip: Option<string>,
                    partitionsToWipe: seq<string>, mountOps: seq<MountOp>): (p: TerminalProps)
    ensures p.actionType == actionType && p.fileName == selectedZip
    ensures p.partitions.Some? <==> actionType == Some(AdvancedWipe)
    ensures p.partitions.Some? ==> p.partitions.value == partitionsToWipe
    ensures p.mountOps.Some? <==> actionType == Some(ActionType.Mount)
    ensures p.mountOps.Some? ==> p.mountOps.value == mountOps
  {
    TerminalProps(
      actionType,
      selectedZip,
      if actionType == Some(AdvancedWipe) then Some(partitionsToWipe) else None,
      if actionType == Some(ActionType.Mount) then Some(mountOps) else None)
  }

  class Shell {
    var currentScreen: Screen
    var selectedZip: Option<string>
    var actionType: Option<ActionType>
    var partitionsToWipe: seq<string>
    var mountOps: seq<MountOp>
    var isRebooting: bool

    /** Home, with nothing selected and no run pending. */
    predicate IsReset()
      reads this
    {
      && currentScreen == Home
      && selectedZip == None
      && actionType == None
      && partitionsToWipe == []
      && mountOps == []
    }

    /** The props of the terminal shown on the `Processing` screen. */
    function Props(): (p: TerminalProps)
      reads this
    {
      PropsFor(actionType, selectedZip, partitionsToWipe, mountOps)
    }

    constructor()
      ensures IsReset() && !isRebooting
    {
      currentScreen := Home;
      selectedZip := None;
      actionType := None;
      partitionsToWipe := [];
      mountOps := [];
      isRebooting := false;
    }

    /** `navigateTo`. */
    method NavigateTo(screen: Screen)
      modifies this
      ensures currentScreen == screen
      ensures selectedZip == old(selectedZip) && actionType == old(actionType)
      ensures partitionsToWipe == old(partitionsToWipe) && mountOps == old(mountOps)
      ensures isRebooting == old(isRebooting)
    {
      currentScreen := screen;
    }

    /** `handleSelectZip`: remembers the package and asks for confirmation. */
    method SelectZip(zipName: string)
      modifies this
      ensures selectedZip == Some(zipName) && currentScreen == ConfirmInstall
      ensures actionType == old(actionType)
      ensures partitionsToWipe == old(partitionsToWipe) && mountOps == old(mountOps)
      ensures isRebooting == old(isRebooting)
    {
      selectedZip := Some(zipName);
      NavigateTo(ConfirmInstall);
    }

    /** `handleConfirmInstall`: the backup choice is accepted and ignored. */
    method ConfirmInstallAction(backup: bool)
      modifies this
      ensures !ShowsFooter(currentScreen)
      ensures actionType == Some(ActionType.Install) && currentScreen == Processing
      ensures selectedZip == old(selectedZip)
      ensures partitionsToWipe == old(partitionsToWipe) && mountOps == old(mountOps)
      ensures isRebooting == old(isRebooting)
    {
      actionType := Some(ActionType.Install);
      NavigateTo(Processing);
    }

    /** `handleConfirmWipe`. */
    method ConfirmWipeAction()
      modifies this
      ensures !ShowsFooter(currentScreen)
      ensures actionType == Some(ActionType.Wipe) && currentScreen == Processing
      ensures selectedZip == old(selectedZip)
      ensures partitionsToWipe == old(partitionsToWipe) && mountOps == old(mountOps)
      ensures isRebooting == old(isRebooting)
    {
      actionType := Some(ActionType.Wipe);
      NavigateTo(Processing);
    }

    /** `handleSelectPartitions`: remembers the selection and asks for
        confirmation. */
    method SelectPartitions(partitions: seq<string>)
      modifies this
      ensures partitionsToWipe == partitions && currentScreen == ConfirmAdvancedWipe
      ensures selectedZip == old(selectedZip) && actionType == old(actionType)
      ensures mountOps == old(mountOps)
      ensures isRebooting == old(isRebooting)
    {
      partitionsToWipe := partitions;
      NavigateTo(ConfirmAdvancedWipe);
    }

    /** `handleConfirmAdvancedWipe`: the terminal then receives the
        remembered selection. */
    method ConfirmAdvancedWipeAction()
      modifies this
      ensures !ShowsFooter(currentScreen)
      ensures actionType == Some(AdvancedWipe) && currentScreen == Processing
      ensures Props().partitions == Some(partitionsToWipe) && Props().mountOps == None
      ensures selectedZip == old(selectedZip)
      ensures partitionsToWipe == old(partitionsToWipe) && mountOps == old(mountOps)
      ensures isRebooting == old(isRebooting)
    {
      actionType := Some(AdvancedWipe);
      NavigateTo(Processing);
    }

    /** `handleConfirmMount`: stores the operations and starts the run; the
        terminal then receives exactly those operations. */
    method ConfirmMountAction(operations: seq<MountOp>)
      modifies this
      ensures !ShowsFooter(currentScreen)
      ensures mountOps == operations && actionType == Some(ActionType.Mount) && currentScreen == Processing
      ensures Props().mountOps == Some(operations) && Props().partitions == None
      ensures selectedZip == old(selectedZip) && partitionsToWipe == old(partitionsToWipe)
      ensures isRebooting == old(isRebooting)
    {
      mountOps := operations;
      actionType := Some(ActionType.Mount);
      NavigateTo(Processing);
    }

    /** `handleReboot`: shows the reboot overlay over whatever is on screen. */
    method Reboot()
      modifies this
      ensures isRebooting
      ensures currentScreen == old(currentScreen) && selectedZip == old(selectedZip)
      ensures actionType == old(actionType)
      ensures partitionsToWipe == old(partitionsToWipe) && mountOps == old(mountOps)
    {
      isRebooting := true;
    }

    /** `handleActionComplete`: forgets every choice and goes home. */
    method ActionComplete()
      modifies this
      ensures ShowsFooter(currentScreen)
      ensures IsReset()
      ensures isRebooting == old(isRebooting)
    {
      selectedZip := None;
      actionType := None;
      partitionsToWipe := [];
      mountOps := [];
      NavigateTo(Home);
    }

    /** `goHome`: the same reset as completing an action. */
    method GoHome()
      modifies this
      ensures ShowsFooter(currentScreen)
      ensures IsReset()
      ensures isRebooting == old(isRebooting)
    {
      selectedZip := None;
      actionType := None;
      partitionsToWipe := [];
      mountOps := [];
      NavigateTo(Home);
    }

    /** `handleRebootComplete`: hides the overlay, then resets as after an
        action. */
    method RebootComplete()
      modifies this
      ensures ShowsFooter(currentScreen)
      ensures IsReset() && !isRebooting
    {
      isRebooting := false;
      ActionComplete();
    }

    /** `goBack`: within the confirmation chains it only moves one screen
        back, keeping every choice; elsewhere it is `goHome`. */
    method GoBack()
      modifies this
      ensures ShowsFooter(currentScreen)
      ensures currentScreen == BackTarget(old(currentScreen))
      ensures BackTarget(old(currentScreen)) == Home ==> IsReset()
      ensures BackTarget(old(currentScreen)) != Home ==>
        && selectedZip == old(selectedZip) && actionType == old(actionType)
        && partitionsToWipe == old(partitionsToWipe) && mountOps == old(mountOps)
      ensures isRebooting == old(isRebooting)
    {
      match currentScreen
      case Install => GoHome();
      case Wipe => GoHome();
      case Mount => GoHome();
      case Settings => GoHome();
      case ConfirmInstall => NavigateTo(Screen.Install);
      case ConfirmWipe => NavigateTo(Screen.Wipe);
      case AdvancedWipeSelection => NavigateTo(Screen.Wipe);
      case ConfirmAdvancedWipe => NavigateTo(AdvancedWipeSelection);
      case _ => GoHome();
    }
  }

  /** The advanced-wipe screen's confirm button, wired to
      `handleSelectPartitions`, followed by the confirmation screen's
      button: the terminal then receives exactly the checked items, each
      once and each one of the offered checkboxes. */
  method ConfirmAdvancedWipeSelection(shell: Shell, screen: Selection.AdvancedWipeScreen)
    requires screen.Valid() && screen.Confirm().Some?
    modifies shell
    ensures shell.currentScreen == Processing && shell.actionType == Some(AdvancedWipe)
    ensures shell.Props().partitions == Some(screen.selected)
    ensures Distinct(shell.Props().partitions.value)
    ensures Selection.Within(shell.Props().partitions.value, Selection.AdvancedWipeItems)
  {
    var payload := screen.Confirm();
    shell.SelectPartitions(payload.value);
    shell.ConfirmAdvancedWipeAction();
  }
}
