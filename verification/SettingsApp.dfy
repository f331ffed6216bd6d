// The components of the settings together, with the calls that are under way: whatever happens to
// them, they move as the system does.
module SettingsApp {
  import opened Common
  import opened SettingsModel
  import opened SettingsProtocol
  import opened SettingsClients

  class App {
    const navigation: NavigationStore
    const store: ProtectionStore
    const dialog: SettingsDialog
    const terminal: RouterTerminal
    const plugins: AccountPlugins
    var backend: Stored
    var calls: seq<Read>
    var saves: seq<Save>
    var openings: seq<Opening>
    var everRead: bool

    ghost function Now(): World
      reads this, dialog, dialog.navigation, dialog.store, terminal
    {
      World(backend, dialog.Now(), terminal.Here(), calls, saves, openings, everRead)
    }

    /** The components share the two stores. */
    predicate Wired() {
      && dialog.navigation == navigation && dialog.store == store
      && terminal.dialog == dialog && plugins.navigation == navigation
    }

    constructor (backend: Stored)
      ensures Wired() && fresh(navigation) && fresh(store) && fresh(dialog) && fresh(terminal) && fresh(plugins)
      ensures Now().backend == backend && Start(Now()) && Inv(Now())
    {
      var nav := new NavigationStore();
      var protection := new ProtectionStore();
      var settings := new SettingsDialog(nav, protection);
      navigation, store, dialog := nav, protection, settings;
      terminal := new RouterTerminal(settings);
      plugins := new AccountPlugins(nav);
      this.backend, calls, saves, openings, everRead := backend, [], [], [], false;
      new;
      StartsInv(Now());
    }

    // the openings and closings, and the reads they begin
    method OnMount(e: Event)
      requires Wired()
      requires e.Open? || e.Close? || e.Unready? || e.AppStarts? || e.TerminalMounts? || e.TerminalUnmounts?
      modifies this`calls, dialog, terminal
      ensures Now() == Step(old(Now()), e)
    {
      match e {
        case Open =>
          var r := dialog.OnOpen();
          calls := calls + [r];
        case Close => dialog.OnClose();
        case Unready(generation) => dialog.OnReset(generation);
        case AppStarts =>
          var r := Read(ByApp, 0, dialog.developerRevision, dialog.protectionRevision,
                        navigation.optionalPagesRevision, store.revision, None);
          calls := calls + [r];
        case TerminalMounts =>
          var r := terminal.OnMount();
          calls := calls + [r];
        case TerminalUnmounts => terminal.mounted := false;
      }
    }

    // the application's effect, when its read returns
    method OnAppSettings(answer: Stored)
      requires Wired()
      modifies navigation
      ensures dialog.Now() == AppReads(old(dialog.Now()), answer)
    {
      hide DeveloperOf, PagesOf, SetOptionalPages;
      if !navigation.developerModeReady {
        navigation.OnDeveloperMode(DeveloperOf(answer));
      }
      if !navigation.optionalPagesReady {
        navigation.OnOptionalPages(PagesOf(answer));
      }
    }

    // the calls to read the settings
    method OnRead(e: Event)
      requires Wired() && (e.ReadReaches? || e.ReadReturns? || e.ReadFails?) && Enabled(Now(), e)
      modifies this`calls, this`everRead, dialog, navigation, store, terminal
      ensures Now() == Step(old(Now()), e)
    {
      hide DialogReads, TerminalReads, AppReads;
      match e {
        case ReadReaches(i) => calls := calls[i := calls[i].(answer := Some(backend))];
        case ReadFails(i) => calls := RemoveAt(calls, i);
        case ReadReturns(i) =>
          var r := calls[i];
          calls := RemoveAt(calls, i);
          match r.client {
            case ByDialog =>
              everRead := everRead || (dialog.isOpen && r.generation == dialog.generation);
              dialog.OnSettings(r, r.answer.value);
            case ByTerminal => terminal.OnSettings(r, r.answer.value);
            case ByApp => OnAppSettings(r.answer.value);
          }
      }
    }

    // the handlers of the dialog and the terminal, up to their calls
    method OnHandler(e: Event)
      requires Wired() && (e.Change? || e.Toggle?)
      modifies this`saves, dialog, store
      ensures Now() == Step(old(Now()), e)
    {
      hide Begin, Blocked;
      match e {
        case Change(c) =>
          var begun := dialog.BeginChange(c);
          if begun {
            saves := saves + [Save(true, c, false)];
          }
        case Toggle(value) =>
          var begun := terminal.BeginToggle();
          if begun {
            saves := saves + [Save(false, Protection(value), false)];
          }
      }
    }

    // the calls to save a setting
    method OnSave(e: Event)
      requires Wired() && (e.SaveReaches? || e.SaveEnds?) && Enabled(Now(), e)
      modifies this`saves, this`backend, dialog, navigation, store
      ensures Now() == Step(old(Now()), e)
    {
      hide End, EndToggle, Saved;
      match e {
        case SaveReaches(i) =>
          backend := Saved(backend, saves[i].change);
          saves := saves[i := saves[i].(applied := true)];
        case SaveEnds(i, ok) =>
          var save := saves[i];
          saves := RemoveAt(saves, i);
          if save.fromDialog {
            dialog.EndChange(save.change, ok);
          } else {
            terminal.FinishToggle(save.change.value, ok);
          }
      }
    }

    // the openings of the account plugins
    method OnOpening(e: Event)
      requires Wired() && Opens(e) && Enabled(Now(), e)
      modifies this`openings, this`backend, navigation
      ensures Now() == Step(old(Now()), e)
    {
      hide Restored, SetDeveloperMode;
      match e {
        case PluginsOpen =>
          var asks := plugins.Begin();
          if asks {
            openings := openings + [Asked];
          }
        case PluginsReach(i) => openings := openings[i := Answered(backend)];
        case PluginsRead(i) =>
          var settings := openings[i].settings;
          var saving := plugins.OnSettings(settings);
          openings := if saving then openings[i := Saving(settings, false)] else RemoveAt(openings, i);
        case PluginsFail(i) => openings := RemoveAt(openings, i);
        case PluginsSave(i) =>
          var settings := openings[i].settings;
          backend := Restored(backend, settings);
          openings := openings[i := Saving(settings, true)];
        case PluginsDone(i) =>
          plugins.OnSaved();
          openings := RemoveAt(openings, i);
      }
    }

    // Whatever happens, the controls keep the invariant exactly if the event is harmless.
    method OnEvent(e: Event)
      requires Wired() && Enabled(Now(), e)
      modifies this, dialog, navigation, store, terminal
      ensures Now() == Step(old(Now()), e)
      ensures old(Inv(Now())) ==> (Inv(Now()) <==> old(Harmless(Now(), e)))
    {
      hide Step, Inv, Harmless;
      ghost var was := Now();
      if e.ReadReaches? || e.ReadReturns? || e.ReadFails? {
        OnRead(e);
      } else if e.Change? || e.Toggle? {
        OnHandler(e);
      } else if e.SaveReaches? || e.SaveEnds? {
        OnSave(e);
      } else if Opens(e) {
        OnOpening(e);
      } else {
        OnMount(e);
      }
      if Inv(was) {
        StepKeepsExactly(was, e);
      }
    }
  }
}
