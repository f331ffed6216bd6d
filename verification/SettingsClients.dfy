// The stores and the components of the settings, in place.
module SettingsClients {
  import opened Common
  import opened SettingsModel

  class NavigationStore {
    var developerMode: bool
    var developerModeReady: bool
    var optionalPages: map<Page, bool>
    var optionalPagesReady: bool
    var optionalPagesRevision: nat

    ghost function Now(): Navigation
      reads this
    {
      Navigation(developerMode, developerModeReady, optionalPages, optionalPagesReady, optionalPagesRevision)
    }

    constructor ()
      ensures Now() == Navigation(false, false, PagesOf(Stored(None, None, map[])), false, 0)
    {
      developerMode, developerModeReady := false, false;
      optionalPages, optionalPagesReady, optionalPagesRevision := PagesOf(Stored(None, None, map[])), false, 0;
    }

    // setDeveloperMode
    method OnDeveloperMode(enabled: bool)
      modifies this
      ensures Now() == SetDeveloperMode(old(Now()), enabled)
    {
      developerMode := enabled;
      developerModeReady := true;
    }

    // setOptionalPages
    method OnOptionalPages(pages: map<Page, bool>)
      modifies this
      ensures Now() == SetOptionalPages(old(Now()), pages)
    {
      if optionalPagesReady && forall page <- pages :: page in optionalPages && optionalPages[page] == pages[page] {
        return;
      }
      optionalPages := optionalPages + pages;
      optionalPagesReady := true;
      optionalPagesRevision := optionalPagesRevision + 1;
    }
  }

  class ProtectionStore {
    var enabled: Option<bool>
    var revision: nat
    var pending: bool

    ghost function Now(): Store
      reads this
    {
      Store(enabled, revision, pending)
    }

    constructor ()
      ensures Now() == Store(None, 0, false)
    {
      enabled, revision, pending := None, 0, false;
    }

    // publish
    method OnPublish(value: bool)
      modifies this
      ensures Now() == Publish(old(Now()), value) && Published(Now())
    {
      enabled := Some(value);
      revision := revision + 1;
    }
  }

  class SettingsDialog {
    const navigation: NavigationStore
    const store: ProtectionStore
    var isOpen: bool
    var generation: nat
    var settingsReady: bool
    var protectionEnabled: bool
    var developerRevision: nat
    var developerPending: bool
    var protectionRevision: nat
    var protectionPending: bool
    var optionalPending: bool

    ghost function Here(): Dialog
      reads this
    {
      Dialog(isOpen, generation, settingsReady, protectionEnabled, developerRevision, developerPending,
             protectionRevision, protectionPending, optionalPending)
    }

    ghost function Now(): Front
      reads this, navigation, store
    {
      Front(navigation.Now(), store.Now(), Here())
    }

    constructor (navigation: NavigationStore, store: ProtectionStore)
      ensures this.navigation == navigation && this.store == store
      ensures Here() == Dialog(false, 0, false, false, 0, false, 0, false, false)
    {
      this.navigation, this.store := navigation, store;
      isOpen, generation, settingsReady, protectionEnabled := false, 0, false, false;
      developerRevision, developerPending := 0, false;
      protectionRevision, protectionPending, optionalPending := 0, false, false;
    }

    // the effect, when the dialog opens
    method OnOpen() returns (r: Read)
      modifies this`isOpen, this`generation
      ensures Now() == old(Now()).(dialog := old(Here()).(isOpen := true, generation := old(generation) + 1))
      ensures r == ReadOf(ByDialog, generation, Now())
    {
      isOpen := true;
      generation := generation + 1;
      r := Read(ByDialog, generation, developerRevision, protectionRevision,
                navigation.optionalPagesRevision, store.revision, None);
    }

    // the effect's microtask after opening `of`
    method OnReset(of: nat)
      modifies this`settingsReady
      ensures Here() == if isOpen && of == generation then old(Here()).(settingsReady := false) else old(Here())
    {
      if isOpen && of == generation {
        settingsReady := false;
      }
    }

    // the effect's cleanup
    method OnClose()
      modifies this`isOpen
      ensures Here() == old(Here()).(isOpen := false)
    {
      isOpen := false;
    }

    // the effect, when the read returns
    method OnSettings(r: Read, answer: Stored)
      modifies this`protectionEnabled, this`settingsReady, navigation
      ensures Now() == DialogReads(old(Now()), r, answer)
    {
      hide DeveloperOf, ProtectionOf, PagesOf, SetOptionalPages;
      if !isOpen || r.generation != generation {
        return;
      }
      if !developerPending && r.developerRevision == developerRevision {
        navigation.OnDeveloperMode(DeveloperOf(answer));
      }
      if !protectionPending && r.protectionRevision == protectionRevision && r.sharedRevision == store.revision {
        protectionEnabled := ProtectionOf(answer);
      }
      if !optionalPending && r.optionalRevision == navigation.optionalPagesRevision {
        navigation.OnOptionalPages(PagesOf(answer));
      }
      settingsReady := true;
    }

    // the subscription to the protection store; `before` is the revision before the change
    method OnProtectionStore(before: nat)
      modifies this`protectionEnabled
      ensures Now() == old(Now()).(dialog := OnStore(old(Here()), store.Now(), before))
    {
      if store.revision != before && store.enabled.Some? && !protectionPending {
        protectionEnabled := store.enabled.value;
      }
    }

    method PublishProtection(value: bool)
      modifies this`protectionEnabled, store
      ensures Now() == PublishTo(old(Now()), value)
    {
      var before := store.revision;
      store.OnPublish(value);
      OnProtectionStore(before);
    }

    // the three handlers up to their `await`
    method BeginChange(c: Change) returns (begun: bool)
      modifies this`developerPending, this`developerRevision, this`protectionPending, this`protectionRevision
      modifies this`optionalPending, store`pending
      ensures begun == !Blocked(old(Now()))
      ensures Now() == if begun then Begin(old(Now()), c) else old(Now())
    {
      if !settingsReady || store.pending || developerPending || protectionPending || optionalPending {
        return false;
      }
      match c {
        case Developer(_) =>
          developerPending := true;
          developerRevision := developerRevision + 1;
        case Protection(_) =>
          protectionPending := true;
          protectionRevision := protectionRevision + 1;
        case Optional(_, _) =>
          optionalPending := true;
      }
      store.pending := true;
      return true;
    }

    // the three handlers after their `await`
    method EndChange(c: Change, ok: bool)
      modifies this, store, navigation
      ensures Now() == End(old(Now()), c, ok)
    {
      hide SetOptionalPages, PublishTo;
      if ok {
        Show(c);
      }
      match c {
        case Developer(_) =>
          developerPending := false;
          developerRevision := developerRevision + 1;
        case Protection(_) =>
          protectionPending := false;
          protectionRevision := protectionRevision + 1;
        case Optional(_, _) =>
          optionalPending := false;
      }
      store.pending := false;
    }

    // what a handler does when its save succeeded
    method Show(c: Change)
      modifies this`protectionEnabled, store, navigation
      ensures Now() == match c
              case Developer(value) => old(Now()).(navigation := SetDeveloperMode(old(navigation.Now()), value))
              case Protection(value) => PublishTo(old(Now()).(dialog := old(Here()).(protectionEnabled := value)),
                  value)
              case Optional(page, value) => old(Now()).(navigation :=
                  SetOptionalPages(old(navigation.Now()), map[page := value]))
    {
      match c {
        case Developer(value) => navigation.OnDeveloperMode(value);
        case Protection(value) =>
          protectionEnabled := value;
          PublishProtection(value);
        case Optional(page, value) => navigation.OnOptionalPages(map[page := value]);
      }
    }
  }

  class RouterTerminal {
    const dialog: SettingsDialog
    var mounted: bool
    var generation: nat
    var ready: bool

    ghost function Here(): Terminal
      reads this
    {
      Terminal(mounted, generation, ready)
    }

    constructor (dialog: SettingsDialog)
      ensures this.dialog == dialog && Here() == Terminal(false, 0, false)
    {
      this.dialog := dialog;
      mounted, generation, ready := false, 0, false;
    }

    // the effect, when the component mounts
    method OnMount() returns (r: Read)
      modifies this
      ensures Here() == Terminal(true, old(generation) + 1, false)
      ensures r == ReadOf(ByTerminal, generation, dialog.Now())
    {
      mounted, generation, ready := true, generation + 1, false;
      r := Read(ByTerminal, generation, dialog.developerRevision, dialog.protectionRevision,
                dialog.navigation.optionalPagesRevision, dialog.store.revision, None);
    }

    // the effect, when the read returns
    method OnSettings(r: Read, answer: Stored)
      modifies this`ready, dialog`protectionEnabled, dialog.store
      ensures (dialog.Now(), Here()) == TerminalReads(old(dialog.Now()), old(Here()), r, answer)
    {
      hide PublishTo;
      if !mounted || r.generation != generation {
        return;
      }
      if dialog.store.revision == r.sharedRevision {
        dialog.PublishProtection(ProtectionOf(answer));
      }
      ready := true;
    }

    // toggle up to its `await`
    method BeginToggle() returns (begun: bool)
      modifies dialog.store`pending
      ensures begun == (ready && !old(dialog.store.pending))
      ensures dialog.Now() == if begun
          then old(dialog.Now()).(store := old(dialog.store.Now()).(pending := true)) else old(dialog.Now())
    {
      begun := ready && !dialog.store.pending;
      if begun {
        dialog.store.pending := true;
      }
    }

    // toggle after its `await`
    method FinishToggle(value: bool, ok: bool)
      modifies dialog`protectionEnabled, dialog.store
      ensures dialog.Now() == EndToggle(old(dialog.Now()), value, ok)
    {
      if ok {
        dialog.PublishProtection(value);
      }
      dialog.store.pending := false;
    }
  }

  /** Opening the account plugins, in the three parts between its calls. */
  class AccountPlugins {
    const navigation: NavigationStore

    constructor (navigation: NavigationStore)
      ensures this.navigation == navigation
    {
      this.navigation := navigation;
    }

    method Begin() returns (asks: bool)
      modifies navigation
      ensures asks == !old(navigation.developerMode)
      ensures navigation.Now() == if asks then old(navigation.Now()) else SetDeveloperMode(old(navigation.Now()), true)
    {
      asks := !navigation.developerMode;
      if !asks {
        navigation.OnDeveloperMode(true);
      }
    }

    method OnSettings(settings: Stored) returns (saves: bool)
      modifies navigation
      ensures saves == (settings.developer != Some(true))
      ensures navigation.Now() == if saves then old(navigation.Now()) else SetDeveloperMode(old(navigation.Now()), true)
    {
      saves := settings.developer != Some(true);
      if !saves {
        navigation.OnDeveloperMode(true);
      }
    }

    method OnSaved()
      modifies navigation
      ensures navigation.Now() == SetDeveloperMode(old(navigation.Now()), true)
    {
      navigation.OnDeveloperMode(true);
    }
  }
}
