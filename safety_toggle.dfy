/** The floating safety-mode switch. */
module SafetyToggle {
  import opened Platform

  const MonitorPath := "/monitor"

  function Label(enabled: bool): string
  {
    if enabled then "Safety Mode ON" else "Safety Mode OFF"
  }

  function Background(enabled: bool): string
  {
    if enabled then "green" else "gray"
  }

  /** The label and the colour always tell the same state apart. */
  lemma LabelMatchesBackground(enabled: bool)
    ensures Label(enabled) == "Safety Mode ON" <==> Background(enabled) == "green"
    ensures Label(enabled) == "Safety Mode ON" <==> enabled
  {
  }

  class Toggle {
    var enabled: bool

    constructor ()
      ensures !enabled
    {
      enabled := false;
    }

    /** Flips the mode; only switching it on navigates to the monitor page. */
    method HandleToggle(b: Browser)
      modifies this, b`log
      ensures enabled == !old(enabled)
      ensures b.log == old(b.log) + (if enabled then [Navigate(MonitorPath)] else [])
    {
      var newState := !enabled;
      enabled := newState;
      if newState {
        b.log := b.log + [Navigate(MonitorPath)];
      }
    }
  }

  /** Toggling twice restores the mode and navigates exactly once, whichever
      way round it started. */
  method ToggleTwice(t: Toggle, b: Browser)
    modifies t, b`log
    ensures t.enabled == old(t.enabled)
    ensures b.log == old(b.log) + [Navigate(MonitorPath)]
  {
    t.HandleToggle(b);
    t.HandleToggle(b);
  }
}
