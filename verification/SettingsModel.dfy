// How the settings dialog and the terminal's toggle show and save three settings that the backend
// owns. Calls to the backend take time, so reads and saves overlap in any way; a save can fail after
// the backend has it; and opening the account plugins saves settings back that were read before.
module SettingsModel {
  import opened Common

  datatype Page = AiNews | AiCareer | LocalLlm

  /** What the backend has on file; a field may be missing. */
  datatype Stored = Stored(developer: Option<bool>, protection: Option<bool>, pages: map<Page, bool>)

  predicate DeveloperOf(b: Stored) { b.developer != Some(false) }

  predicate ProtectionOf(b: Stored) { b.protection == Some(true) }

  // optionalPagesFromSettings
  function PagesOf(b: Stored): (pages: map<Page, bool>)
    ensures pages.Keys == {AiNews, AiCareer, LocalLlm}
  {
    map page | page in {AiNews, AiCareer, LocalLlm} :: page !in b.pages || b.pages[page]
  }

  datatype Change = Developer(value: bool) | Protection(value: bool) | Optional(page: Page, value: bool)

  // A save changes the one field it names.
  function Saved(b: Stored, c: Change): Stored {
    match c
    case Developer(value) => b.(developer := Some(value))
    case Protection(value) => b.(protection := Some(value))
    case Optional(page, value) => b.(pages := b.pages[page := value])
  }

  // Opening the account plugins saves the settings it read, with developer mode on; a field that was
  // missing is not written.
  function Restored(b: Stored, read: Stored): Stored {
    Stored(Some(true), if read.protection.Some? then read.protection else b.protection, b.pages + read.pages)
  }

  // ---------- the shared stores and the two components ----------

  datatype Navigation = Navigation(developerMode: bool, developerModeReady: bool, optionalPages: map<Page, bool>,
                                   optionalPagesReady: bool, optionalPagesRevision: nat)

  function SetDeveloperMode(n: Navigation, enabled: bool): Navigation {
    n.(developerMode := enabled, developerModeReady := true)
  }

  predicate Shows(n: Navigation, pages: map<Page, bool>) {
    forall page :: page in pages ==> page in n.optionalPages && n.optionalPages[page] == pages[page]
  }

  function SetOptionalPages(n: Navigation, pages: map<Page, bool>): Navigation {
    if n.optionalPagesReady && Shows(n, pages) then n
    else n.(optionalPages := n.optionalPages + pages, optionalPagesReady := true,
            optionalPagesRevision := n.optionalPagesRevision + 1)
  }

  datatype Store = Store(enabled: Option<bool>, revision: nat, pending: bool)

  /** There is a value exactly when one was published. */
  predicate Published(p: Store) { p.revision > 0 <==> p.enabled.Some? }

  function Publish(p: Store, enabled: bool): Store { p.(enabled := Some(enabled), revision := p.revision + 1) }

  datatype Dialog = Dialog(isOpen: bool, generation: nat, settingsReady: bool, protectionEnabled: bool,
                           developerRevision: nat, developerPending: bool,
                           protectionRevision: nat, protectionPending: bool, optionalPending: bool)

  /** The dialog's subscription to the protection store. */
  function OnStore(d: Dialog, now: Store, before: nat): Dialog {
    if now.revision != before && now.enabled.Some? && !d.protectionPending
    then d.(protectionEnabled := now.enabled.value) else d
  }

  datatype Terminal = Terminal(mounted: bool, generation: nat, ready: bool)

  /** The dialog and the stores it writes. */
  datatype Front = Front(navigation: Navigation, store: Store, dialog: Dialog)

  function PublishTo(f: Front, enabled: bool): Front {
    var store := Publish(f.store, enabled);
    f.(store := store, dialog := OnStore(f.dialog, store, f.store.revision))
  }

  datatype Client = ByDialog | ByTerminal | ByApp

  /** A read under way with what its client remembered when it began; `answer` is what the backend
      had on file when the read reached it. */
  datatype Read = Read(client: Client, generation: nat, developerRevision: nat, protectionRevision: nat,
                       optionalRevision: nat, sharedRevision: nat, answer: Option<Stored>)

  function ReadOf(client: Client, generation: nat, f: Front): Read {
    Read(client, generation, f.dialog.developerRevision, f.dialog.protectionRevision,
         f.navigation.optionalPagesRevision, f.store.revision, None)
  }

  // The dialog's effect, when a read returns.
  function DialogReads(f: Front, r: Read, answer: Stored): Front {
    var d := f.dialog;
    if !d.isOpen || r.generation != d.generation then f
    else
      var developer := if !d.developerPending && r.developerRevision == d.developerRevision
                       then SetDeveloperMode(f.navigation, DeveloperOf(answer)) else f.navigation;
      var current := !d.protectionPending && r.protectionRevision == d.protectionRevision
          && r.sharedRevision == f.store.revision;
      var navigation := if !d.optionalPending && r.optionalRevision == developer.optionalPagesRevision
                        then SetOptionalPages(developer, PagesOf(answer)) else developer;
      Front(navigation, f.store,
            d.(protectionEnabled := if current then ProtectionOf(answer) else d.protectionEnabled,
               settingsReady := true))
  }

  // The terminal's effect, when a read returns.
  function TerminalReads(f: Front, t: Terminal, r: Read, answer: Stored): (Front, Terminal) {
    if !t.mounted || r.generation != t.generation then (f, t)
    else (if f.store.revision == r.sharedRevision then PublishTo(f, ProtectionOf(answer)) else f, t.(ready := true))
  }

  // The application's effect, when its read returns.
  function AppReads(f: Front, answer: Stored): Front {
    var developer := if !f.navigation.developerModeReady
        then SetDeveloperMode(f.navigation, DeveloperOf(answer)) else f.navigation;
    f.(navigation := if !developer.optionalPagesReady then SetOptionalPages(developer, PagesOf(answer)) else developer)
  }

  /** The guard that the three handlers of the dialog share. */
  predicate Blocked(f: Front) {
    || !f.dialog.settingsReady || f.store.pending
    || f.dialog.developerPending || f.dialog.protectionPending || f.dialog.optionalPending
  }

  // A handler up to its `await`.
  function Begin(f: Front, c: Change): Front
    requires !Blocked(f)
  {
    var d := f.dialog;
    f.(store := f.store.(pending := true),
       dialog := match c
         case Developer(_) => d.(developerPending := true, developerRevision := d.developerRevision + 1)
         case Protection(_) => d.(protectionPending := true, protectionRevision := d.protectionRevision + 1)
         case Optional(_, _) => d.(optionalPending := true))
  }

  // A handler after its `await`.
  function End(f: Front, c: Change, ok: bool): Front {
    var shown := if !ok then f else match c
      case Developer(value) => f.(navigation := SetDeveloperMode(f.navigation, value))
      case Protection(value) => PublishTo(f.(dialog := f.dialog.(protectionEnabled := value)), value)
      case Optional(page, value) => f.(navigation := SetOptionalPages(f.navigation, map[page := value]));
    var d := shown.dialog;
    shown.(store := shown.store.(pending := false),
           dialog := match c
             case Developer(_) => d.(developerPending := false, developerRevision := d.developerRevision + 1)
             case Protection(_) => d.(protectionPending := false, protectionRevision := d.protectionRevision + 1)
             case Optional(_, _) => d.(optionalPending := false))
  }

  // The terminal's toggle after its `await`.
  function EndToggle(f: Front, value: bool, ok: bool): Front {
    var shown := if ok then PublishTo(f, value) else f;
    shown.(store := shown.store.(pending := false))
  }

  // ---------- the system ----------

  datatype Save = Save(fromDialog: bool, change: Change, applied: bool)

  /** How far one opening of the account plugins got: it asked for the settings, has them, or saves
      them; a save has landed when the backend has it. */
  datatype Opening = Asked | Answered(settings: Stored) | Saving(settings: Stored, landed: bool)

  /** `everRead` says that the dialog has taken the result of a read. */
  datatype World = World(backend: Stored, front: Front, terminal: Terminal, calls: seq<Read>, saves: seq<Save>,
                         openings: seq<Opening>, everRead: bool)

  datatype Event =
    | Open
    | Close
    | Unready(generation: nat)
    | AppStarts
    | TerminalMounts
    | TerminalUnmounts
    | ReadReaches(read: nat)
    | ReadReturns(read: nat)
    | ReadFails(read: nat)
    | Change(change: Change)
    | Toggle(value: bool)
    | SaveReaches(save: nat)
    | SaveEnds(save: nat, ok: bool)
    | PluginsOpen
    | PluginsReach(opening: nat)
    | PluginsRead(opening: nat)
    | PluginsFail(opening: nat)
    | PluginsSave(opening: nat)
    | PluginsDone(opening: nat)

  /** A save succeeds only once the backend has it; it can fail at any time. */
  predicate Enabled(w: World, e: Event) {
    match e
    case ReadReaches(i) => i < |w.calls| && w.calls[i].answer.None?
    case ReadReturns(i) => i < |w.calls| && w.calls[i].answer.Some?
    case ReadFails(i) => i < |w.calls|
    case SaveReaches(i) => i < |w.saves| && !w.saves[i].applied
    case SaveEnds(i, ok) => i < |w.saves| && (ok ==> w.saves[i].applied)
    case PluginsReach(i) => i < |w.openings| && w.openings[i].Asked?
    case PluginsRead(i) => i < |w.openings| && w.openings[i].Answered?
    case PluginsFail(i) => i < |w.openings|
    case PluginsSave(i) => i < |w.openings| && w.openings[i].Saving? && !w.openings[i].landed
    case PluginsDone(i) => i < |w.openings| && w.openings[i].Saving? && w.openings[i].landed
    case _ => true
  }

  function Returned(w: World, r: Read, answer: Stored): World {
    match r.client
    case ByDialog =>
      w.(front := DialogReads(w.front, r, answer),
         everRead := w.everRead || (w.front.dialog.isOpen && r.generation == w.front.dialog.generation))
    case ByTerminal =>
      var (front, terminal) := TerminalReads(w.front, w.terminal, r, answer);
      w.(front := front, terminal := terminal)
    case ByApp => w.(front := AppReads(w.front, answer))
  }

  /** The world with developer mode shown as on. */
  function DeveloperOn(w: World): World {
    w.(front := w.front.(navigation := SetDeveloperMode(w.front.navigation, true)))
  }

  predicate Opens(e: Event) {
    e.PluginsOpen? || e.PluginsReach? || e.PluginsRead? || e.PluginsFail? || e.PluginsSave? || e.PluginsDone?
  }

  // The steps of opening the account plugins.
  function Plugins(w: World, e: Event): World
    requires Enabled(w, e) && Opens(e)
  {
    match e
    case PluginsOpen =>
      if w.front.navigation.developerMode then DeveloperOn(w) else w.(openings := w.openings + [Asked])
    case PluginsReach(i) => w.(openings := w.openings[i := Answered(w.backend)])
    case PluginsRead(i) =>
      var settings := w.openings[i].settings;
      if settings.developer == Some(true) then DeveloperOn(w).(openings := RemoveAt(w.openings, i))
      else w.(openings := w.openings[i := Saving(settings, false)])
    case PluginsFail(i) => w.(openings := RemoveAt(w.openings, i))
    case PluginsSave(i) =>
      var settings := w.openings[i].settings;
      w.(backend := Restored(w.backend, settings), openings := w.openings[i := Saving(settings, true)])
    case PluginsDone(i) => DeveloperOn(w).(openings := RemoveAt(w.openings, i))
  }

  /** An event's effect but for the list of reads under way. */
  function Effect(w: World, e: Event): World
    requires Enabled(w, e)
  {
    var d, t := w.front.dialog, w.terminal;
    match e
    case Open => w.(front := w.front.(dialog := d.(isOpen := true, generation := d.generation + 1)))
    case Close => w.(front := w.front.(dialog := d.(isOpen := false)))
    case Unready(generation) =>
      if d.isOpen && generation == d.generation then w.(front := w.front.(dialog := d.(settingsReady := false))) else w
    case TerminalMounts => w.(terminal := Terminal(true, t.generation + 1, false))
    case TerminalUnmounts => w.(terminal := t.(mounted := false))
    case ReadReturns(i) => Returned(w, w.calls[i], w.calls[i].answer.value)
    case Change(c) =>
      if Blocked(w.front) then w else w.(front := Begin(w.front, c), saves := w.saves + [Save(true, c, false)])
    case Toggle(value) =>
      if !t.ready || w.front.store.pending then w
      else w.(front := w.front.(store := w.front.store.(pending := true)),
              saves := w.saves + [Save(false, Protection(value), false)])
    case SaveReaches(i) => w.(backend := Saved(w.backend, w.saves[i].change),
        saves := w.saves[i := w.saves[i].(applied := true)])
    case SaveEnds(i, ok) =>
      var s := w.saves[i];
      w.(saves := RemoveAt(w.saves, i),
         front := if s.fromDialog then End(w.front, s.change, ok) else EndToggle(w.front, s.change.value, ok))
    case AppStarts => w
    case ReadReaches(_) => w
    case ReadFails(_) => w
    case _ => Plugins(w, e)
  }

  function CallsAfter(w: World, e: Event): seq<Read>
    requires Enabled(w, e)
  {
    match e
    case Open => w.calls + [ReadOf(ByDialog, w.front.dialog.generation + 1, w.front)]
    case AppStarts => w.calls + [ReadOf(ByApp, 0, w.front)]
    case TerminalMounts => w.calls + [ReadOf(ByTerminal, w.terminal.generation + 1, w.front)]
    case ReadReaches(i) => w.calls[i := w.calls[i].(answer := Some(w.backend))]
    case ReadReturns(i) => RemoveAt(w.calls, i)
    case ReadFails(i) => RemoveAt(w.calls, i)
    case _ => w.calls
  }

  function Step(w: World, e: Event): World
    requires Enabled(w, e)
  {
    Effect(w, e).(calls := CallsAfter(w, e))
  }
}
