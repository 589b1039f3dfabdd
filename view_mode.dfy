/**
 * The views the main window can be in, and the name each one is known by
 * in the window's stacks.
 */
module ViewModes {

  import opened Wrappers

  datatype ViewMode = StartUp | CreatingWork | ImportingWork | Editing | Previewing | Preferences

  /**
   * The name of a view: the spelling of its variant, which is also the name
   * of the page showing it. Each view has a name of its own, so reading the
   * name back gives the view.
   */
  function Name(m: ViewMode): (name: string)
    ensures FromName(name) == Some(m)
  {
    match m
    case StartUp => "StartUp"
    case CreatingWork => "CreatingWork"
    case ImportingWork => "ImportingWork"
    case Editing => "Editing"
    case Previewing => "Previewing"
    case Preferences => "Preferences"
  }

  /**
   * The view a page name stands for, if any: a reading of the six names
   * written independently of `Name`, against which `Name` is checked.
   */
  function FromName(name: string): Option<ViewMode>
  {
    if name == "StartUp" then Some(StartUp)
    else if name == "CreatingWork" then Some(CreatingWork)
    else if name == "ImportingWork" then Some(ImportingWork)
    else if name == "Editing" then Some(Editing)
    else if name == "Previewing" then Some(Previewing)
    else if name == "Preferences" then Some(Preferences)
    else None
  }

  /** Every view, once each. */
  const ALL_MODES: seq<ViewMode> :=
    [StartUp, CreatingWork, ImportingWork, Editing, Previewing, Preferences]

  /** The list of views is complete. */
  lemma AllModesComplete(m: ViewMode)
    ensures m in ALL_MODES
  {
  }

  /** Distinct views have distinct names. */
  lemma NameInjective(m1: ViewMode, m2: ViewMode)
    requires Name(m1) == Name(m2)
    ensures m1 == m2
  {
    assert Some(m1) == FromName(Name(m1)) == FromName(Name(m2)) == Some(m2);
  }
}
