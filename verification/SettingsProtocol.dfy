// What the settings dialog and the terminal show, over every interleaving of reads, saves, failures
// and openings of the account plugins.
module SettingsProtocol {
  import opened Common
  import opened SettingsModel

  // ---------- the invariant ----------

  /** The pending flags say exactly which save is under way. */
  predicate Flags(w: World) {
    var d := w.front.dialog;
    && |w.saves| <= 1
    && (w.front.store.pending <==> |w.saves| == 1)
    && (d.developerPending <==> |w.saves| == 1 && w.saves[0].change.Developer?)
    && (d.protectionPending <==> |w.saves| == 1 && w.saves[0].change.Protection? && w.saves[0].fromDialog)
    && (d.optionalPending <==> |w.saves| == 1 && w.saves[0].change.Optional?)
    && (|w.saves| == 1 && !w.saves[0].fromDialog ==> w.saves[0].change.Protection?)
    && (d.settingsReady ==> w.everRead)
  }

  predicate DeveloperLanded(w: World) { |w.saves| == 1 && w.saves[0].applied && w.saves[0].change.Developer? }
  predicate ProtectionLanded(w: World) { |w.saves| == 1 && w.saves[0].applied && w.saves[0].change.Protection? }
  predicate OptionalLanded(w: World) { |w.saves| == 1 && w.saves[0].applied && w.saves[0].change.Optional? }

  predicate LandedAt(openings: seq<Opening>, i: int) {
    0 <= i < |openings| && openings[i].Saving? && openings[i].landed
  }

  /** The save of some opening is at the backend, and developer mode is about to be shown. */
  predicate AnyLanded(openings: seq<Opening>) { exists i :: 0 <= i < |openings| && LandedAt(openings, i) }

  predicate OtherLanded(openings: seq<Opening>, i: nat) {
    exists j :: 0 <= j < |openings| && LandedAt(openings, j) && j != i
  }

  /** The component that began the read is still there for its result. */
  predicate Live(w: World, r: Read) {
    match r.client
    case ByDialog => w.front.dialog.isOpen && r.generation == w.front.dialog.generation
    case ByTerminal => w.terminal.mounted && r.generation == w.terminal.generation
    case ByApp => true
  }

  /** The read would show what it brings, for each setting. */
  predicate DeveloperTakes(w: World, r: Read) {
    var d := w.front.dialog;
    match r.client
    case ByDialog => Live(w, r) && !d.developerPending && r.developerRevision == d.developerRevision
    case ByTerminal => false
    case ByApp => !w.front.navigation.developerModeReady
  }

  predicate ProtectionTakes(w: World, r: Read) {
    var d := w.front.dialog;
    && Live(w, r) && !r.client.ByApp? && r.sharedRevision == w.front.store.revision
    && (r.client.ByDialog? ==> !d.protectionPending && r.protectionRevision == d.protectionRevision)
  }

  predicate OptionalTakes(w: World, r: Read) {
    match r.client
    case ByDialog => Live(w, r) && r.optionalRevision == w.front.navigation.optionalPagesRevision
    case ByTerminal => false
    case ByApp => !w.front.navigation.optionalPagesReady
  }

  /** What a read remembers is not newer than what there is. */
  predicate Known(w: World, r: Read) {
    var d := w.front.dialog;
    && (r.client.ByDialog? ==> r.generation <= d.generation)
          && (r.client.ByTerminal? ==> r.generation <= w.terminal.generation)
    && r.developerRevision <= d.developerRevision && r.protectionRevision <= d.protectionRevision
    && r.sharedRevision <= w.front.store.revision && r.optionalRevision <= w.front.navigation.optionalPagesRevision
  }

  /** A read may still show what it brought for a setting only if that is what the backend has. */
  predicate DeveloperCall(w: World, r: Read) {
    r.answer.Some? && DeveloperTakes(w, r) ==> DeveloperOf(r.answer.value) == DeveloperOf(w.backend)
  }

  predicate ProtectionCall(w: World, r: Read) {
    r.answer.Some? && !ProtectionLanded(w) && ProtectionTakes(w, r) ==>
        ProtectionOf(r.answer.value) == ProtectionOf(w.backend)
  }

  predicate OptionalCall(w: World, r: Read) {
    r.answer.Some? && OptionalTakes(w, r) ==>
      PagesOf(r.answer.value) == PagesOf(w.backend)
      || (OptionalLanded(w) && PagesOf(r.answer.value) == w.front.navigation.optionalPages)
  }

  predicate DeveloperShown(w: World) {
    var d, n := w.front.dialog, w.front.navigation;
    && (n.developerModeReady && !DeveloperLanded(w) && !AnyLanded(w.openings) ==>
          n.developerMode == DeveloperOf(w.backend))
    && (!n.developerModeReady ==> !n.developerMode && !w.everRead && !d.developerPending && d.developerRevision == 0)
    && (DeveloperLanded(w) ==> DeveloperOf(w.backend) == w.saves[0].change.value)
  }

  predicate ProtectionShown(w: World) {
    var d, p := w.front.dialog, w.front.store;
    && Published(p)
    && (p.enabled.Some? && !ProtectionLanded(w) ==> p.enabled.value == ProtectionOf(w.backend))
    && ((w.everRead || p.enabled.Some?) && !ProtectionLanded(w) ==> d.protectionEnabled == ProtectionOf(w.backend))
    && (ProtectionLanded(w) ==> ProtectionOf(w.backend) == w.saves[0].change.value)
    && (!w.everRead ==> !d.protectionPending && d.protectionRevision == 0)
  }

  predicate OptionalShown(w: World) {
    var d, n := w.front.dialog, w.front.navigation;
    && (n.optionalPagesReady && !OptionalLanded(w) ==> n.optionalPages == PagesOf(w.backend))
    && (OptionalLanded(w) ==> PagesOf(w.backend) == n.optionalPages[w.saves[0].change.page := w.saves[0].change.value])
    && n.optionalPages.Keys == {AiNews, AiCareer, LocalLlm}
    && (!n.optionalPagesReady ==> !w.everRead && !d.optionalPending && n.optionalPagesRevision == 0)
  }

  predicate Calls(w: World, r: Read) {
    Known(w, r) && DeveloperCall(w, r) && ProtectionCall(w, r) && OptionalCall(w, r)
  }

  predicate Shown(w: World) { Flags(w) && DeveloperShown(w) && ProtectionShown(w) && OptionalShown(w) }

  predicate Inv(w: World) { Shown(w) && forall r :: r in w.calls ==> Calls(w, r) }

  // ---------- the events that may go wrong ----------

  /** Some read that would show its answer has one already. */
  predicate DeveloperWaits(w: World) { exists r :: r in w.calls && r.answer.Some? && DeveloperTakes(w, r) }
  predicate ProtectionWaits(w: World) { exists r :: r in w.calls && r.answer.Some? && ProtectionTakes(w, r) }
  predicate OptionalWaits(w: World) { exists r :: r in w.calls && r.answer.Some? && OptionalTakes(w, r) }

  /** A save that fails after the backend has it does no harm if its value is shown already, and no
      waiting read brings the other value. */
  predicate LateOk(w: World, c: Change) {
    match c
    case Developer(value) => AnyLanded(w.openings) || w.front.navigation.developerMode == value
    case Protection(value) =>
      && w.front.store.enabled in {None, Some(value)}
      && (w.everRead || w.front.store.enabled.Some? ==> w.front.dialog.protectionEnabled == value)
      && forall r :: r in w.calls && r.answer.Some? && ProtectionTakes(w, r) ==> ProtectionOf(r.answer.value) == value
    case Optional(page, value) =>
      page in w.front.navigation.optionalPages && w.front.navigation.optionalPages[page] == value
  }

  /** The save of an opening does no harm if it changes nothing that is shown or about to be shown. */
  predicate RestoreOk(w: World, read: Stored) {
    var after := Restored(w.backend, read);
    && (DeveloperOf(w.backend) || (!DeveloperLanded(w) && !DeveloperWaits(w)))
    && (ProtectionOf(after) == ProtectionOf(w.backend)
        || (!w.everRead && w.front.store.enabled.None? && !ProtectionLanded(w) && !ProtectionWaits(w)))
    && (PagesOf(after) == PagesOf(w.backend) || (!w.front.navigation.optionalPagesReady && !OptionalWaits(w)))
  }

  /** Showing developer mode as on does no harm if it is on, or if a save under way settles it. */
  predicate DeveloperOk(w: World, i: nat) {
    DeveloperOf(w.backend) || DeveloperLanded(w) || OtherLanded(w.openings, i)
  }

  /** The condition on an event under which it keeps the invariant. */
  predicate Harmless(w: World, e: Event)
    requires Enabled(w, e)
  {
    match e
    case SaveEnds(i, ok) => ok || !w.saves[i].applied || LateOk(w, w.saves[i].change)
    case PluginsRead(i) => w.openings[i].settings.developer == Some(true) ==> DeveloperOk(w, i)
    case PluginsFail(i) =>
      LandedAt(w.openings, i) ==>
        DeveloperLanded(w) || OtherLanded(w.openings, i) || !w.front.navigation.developerModeReady
        || w.front.navigation.developerMode == DeveloperOf(w.backend)
    case PluginsSave(i) => RestoreOk(w, w.openings[i].settings)
    case PluginsDone(i) => DeveloperOk(w, i)
    case _ => true
  }

  // ---------- every harmless step keeps it ----------

  lemma EveryPage(page: Page)
    ensures page in {AiNews, AiCareer, LocalLlm}
  {
    match page
    case AiNews =>
    case AiCareer =>
    case LocalLlm =>
  }

  lemma SavedFields(b: Stored, c: Change)
    ensures DeveloperOf(Saved(b, c)) == if c.Developer? then c.value else DeveloperOf(b)
    ensures ProtectionOf(Saved(b, c)) == if c.Protection? then c.value else ProtectionOf(b)
    ensures PagesOf(Saved(b, c)) == if c.Optional? then PagesOf(b)[c.page := c.value] else PagesOf(b)
  {
    var s := Saved(b, c);
    if c.Optional? {
      forall page | page in {AiNews, AiCareer, LocalLlm}
        ensures PagesOf(s)[page] == PagesOf(b)[c.page := c.value][page]
      {
      }
      EveryPage(c.page);
      assert PagesOf(b)[c.page := c.value].Keys == {AiNews, AiCareer, LocalLlm};
    }
  }

  lemma LandedWithout(openings: seq<Opening>, i: nat)
    requires i < |openings|
    ensures AnyLanded(RemoveAt(openings, i)) <==> OtherLanded(openings, i)
    ensures AnyLanded(openings) <==> OtherLanded(openings, i) || LandedAt(openings, i)
  {
    var rest := RemoveAt(openings, i);
    assert forall j :: 0 <= j < |rest| ==> rest[j] == openings[if j < i then j else j + 1];
    if j :| LandedAt(rest, j) {
      assert LandedAt(openings, if j < i then j else j + 1);
    }
    if j :| LandedAt(openings, j) && j != i {
      assert LandedAt(rest, if j < i then j else j - 1);
    }
  }

  lemma LandedWith(openings: seq<Opening>, i: nat, o: Opening)
    requires i < |openings|
    ensures AnyLanded(openings[i := o]) <==> OtherLanded(openings, i) || (o.Saving? && o.landed)
    ensures AnyLanded(openings) <==> OtherLanded(openings, i) || LandedAt(openings, i)
  {
    var next := openings[i := o];
    if o.Saving? && o.landed {
      assert LandedAt(next, i);
    }
    if j :| LandedAt(next, j) && j != i {
      assert LandedAt(openings, j);
    }
    if j :| LandedAt(openings, j) && j != i {
      assert LandedAt(next, j);
    }
  }

  lemma LandedMore(openings: seq<Opening>)
    ensures AnyLanded(openings + [Asked]) <==> AnyLanded(openings)
  {
    if j :| LandedAt(openings, j) {
      assert LandedAt(openings + [Asked], j);
    }
    if j :| LandedAt(openings + [Asked], j) {
      assert LandedAt(openings, j);
    }
  }

  // How the landed saves of openings change.
  lemma LandedChange(w: World, e: Event)
    requires Enabled(w, e) && Opens(e)
    ensures var before, after := w.openings, Effect(w, e).openings;
            match e
            case PluginsOpen => AnyLanded(after) == AnyLanded(before)
            case PluginsSave(i) => AnyLanded(after) && AnyLanded(before) == OtherLanded(before, i)
            case _ =>
              && AnyLanded(after) == OtherLanded(before, e.opening)
              && AnyLanded(before) == (OtherLanded(before, e.opening) || LandedAt(before, e.opening))
              && (e.PluginsReach? || e.PluginsRead? ==> !LandedAt(before, e.opening))
              && (e.PluginsDone? ==> LandedAt(before, e.opening))
  {
    match e
    case PluginsOpen => LandedMore(w.openings);
    case PluginsReach(i) => LandedWith(w.openings, i, Answered(w.backend));
    case PluginsRead(i) =>
      LandedWithout(w.openings, i);
      LandedWith(w.openings, i, Saving(w.openings[i].settings, false));
    case PluginsSave(i) => LandedWith(w.openings, i, Saving(w.openings[i].settings, true));
    case PluginsFail(i) => LandedWithout(w.openings, i);
    case PluginsDone(i) => LandedWithout(w.openings, i);
  }

  lemma RestoredFields(w: World, e: Event)
    requires Enabled(w, e) && Opens(e)
    ensures !e.PluginsSave? ==> Effect(w, e).backend == w.backend
    ensures e.PluginsSave? ==>
              Effect(w, e).backend == Restored(w.backend, w.openings[e.opening].settings)
                  && DeveloperOf(Effect(w, e).backend)
    ensures var next := Effect(w, e);
            && next.front == (if next.front == w.front then w else DeveloperOn(w)).front
            && next.saves == w.saves && next.calls == w.calls && next.terminal == w.terminal
                 && next.everRead == w.everRead
  {
  }

  // An opening only moves developer mode to on, and its save writes back what it read.
  lemma PluginsDeveloper(w: World, e: Event)
    requires Flags(w) && DeveloperShown(w) && Enabled(w, e) && Opens(e) && Harmless(w, e)
    ensures DeveloperShown(Effect(w, e))
    ensures forall q :: q in w.calls && DeveloperCall(w, q) ==> DeveloperCall(Effect(w, e), q)
  {
    LandedChange(w, e);
    RestoredFields(w, e);
    hide AnyLanded, OtherLanded, LandedAt, PagesOf, ProtectionOf, DeveloperOf, Restored;
  }

  // Nothing but developer mode moves in the front end.
  lemma PluginsProtection(w: World, e: Event)
    requires Flags(w) && ProtectionShown(w) && Enabled(w, e) && Opens(e) && Harmless(w, e)
    ensures ProtectionShown(Effect(w, e))
    ensures forall q :: q in w.calls && ProtectionCall(w, q) ==> ProtectionCall(Effect(w, e), q)
  {
    RestoredFields(w, e);
    hide Effect, Restored, PagesOf, DeveloperOf, ProtectionOf, AnyLanded, OtherLanded, LandedAt;
  }

  lemma PluginsOptional(w: World, e: Event)
    requires Flags(w) && OptionalShown(w) && Enabled(w, e) && Opens(e) && Harmless(w, e)
    ensures OptionalShown(Effect(w, e))
    ensures forall q :: q in w.calls && OptionalCall(w, q) ==> OptionalCall(Effect(w, e), q)
  {
    RestoredFields(w, e);
    hide Effect, Restored, PagesOf, DeveloperOf, ProtectionOf, AnyLanded, OtherLanded, LandedAt;
  }

  lemma ReturnedDeveloper(w: World, r: Read)
    requires Flags(w) && DeveloperShown(w) && r.answer.Some? && Known(w, r) && DeveloperCall(w, r)
    ensures DeveloperShown(Returned(w, r, r.answer.value))
    ensures forall q :: Known(w, q) && DeveloperCall(w, q) ==> DeveloperCall(Returned(w, r, r.answer.value), q)
  {
    hide PagesOf, DeveloperOf, Shows, ProtectionOf, AnyLanded;
  }

  lemma SaveDeveloper(w: World, e: Event)
    requires Flags(w) && DeveloperShown(w) && Enabled(w, e) && (e.SaveReaches? || e.SaveEnds?) && Harmless(w, e)
    ensures DeveloperShown(Effect(w, e))
    ensures forall q :: q in w.calls && Known(w, q) && DeveloperCall(w, q) ==> DeveloperCall(Effect(w, e), q)
  {
    hide PagesOf, DeveloperOf, Shows, ProtectionOf, Saved, AnyLanded, OtherLanded;
    if e.SaveReaches? {
      SavedFields(w.backend, w.saves[e.save].change);
    }
  }

  lemma EffectDeveloper(w: World, e: Event)
    requires Flags(w) && DeveloperShown(w) && Enabled(w, e) && Harmless(w, e)
    requires e.ReadReturns? ==> Known(w, w.calls[e.read]) && DeveloperCall(w, w.calls[e.read])
    ensures DeveloperShown(Effect(w, e))
    ensures forall q :: q in w.calls && Known(w, q) && DeveloperCall(w, q) ==> DeveloperCall(Effect(w, e), q)
  {
    if e.ReadReturns? {
      ReturnedDeveloper(w, w.calls[e.read]);
    } else if e.SaveReaches? || e.SaveEnds? {
      SaveDeveloper(w, e);
    } else if Opens(e) {
      PluginsDeveloper(w, e);
    } else {
      hide PagesOf, DeveloperOf, Shows, ProtectionOf, Saved, Returned, End, EndToggle, Plugins, AnyLanded;
    }
  }

  lemma ReturnedProtection(w: World, r: Read)
    requires Flags(w) && ProtectionShown(w) && r.answer.Some? && Known(w, r) && ProtectionCall(w, r)
    ensures ProtectionShown(Returned(w, r, r.answer.value))
    ensures forall q :: Known(w, q) && ProtectionCall(w, q) ==> ProtectionCall(Returned(w, r, r.answer.value), q)
  {
    hide PagesOf, DeveloperOf, SetOptionalPages, ProtectionOf, AnyLanded;
  }

  lemma SaveProtection(w: World, e: Event)
    requires Flags(w) && ProtectionShown(w) && Enabled(w, e) && (e.SaveReaches? || e.SaveEnds?) && Harmless(w, e)
    ensures ProtectionShown(Effect(w, e))
    ensures forall q :: q in w.calls && Known(w, q) && ProtectionCall(w, q) ==> ProtectionCall(Effect(w, e), q)
  {
    hide PagesOf, DeveloperOf, SetOptionalPages, ProtectionOf, Saved, AnyLanded, OtherLanded;
    if e.SaveReaches? {
      SavedFields(w.backend, w.saves[e.save].change);
    }
  }

  lemma EffectProtection(w: World, e: Event)
    requires Flags(w) && ProtectionShown(w) && Enabled(w, e) && Harmless(w, e)
    requires e.ReadReturns? ==> Known(w, w.calls[e.read]) && ProtectionCall(w, w.calls[e.read])
    ensures ProtectionShown(Effect(w, e))
    ensures forall q :: q in w.calls && Known(w, q) && ProtectionCall(w, q) ==> ProtectionCall(Effect(w, e), q)
  {
    if e.ReadReturns? {
      ReturnedProtection(w, w.calls[e.read]);
    } else if e.SaveReaches? || e.SaveEnds? {
      SaveProtection(w, e);
    } else if Opens(e) {
      PluginsProtection(w, e);
    } else {
      hide PagesOf, DeveloperOf, SetOptionalPages, ProtectionOf, Saved, Returned, End, EndToggle, Plugins, AnyLanded;
    }
  }

  // Taking over what the backend has on file.
  lemma TakePages(n: Navigation, pages: map<Page, bool>)
    requires n.optionalPages.Keys == pages.Keys
    ensures var next := SetOptionalPages(n, pages);
            && next.optionalPages == pages && next.optionalPagesReady
            && next.developerMode == n.developerMode && next.developerModeReady == n.developerModeReady
            && next.optionalPagesRevision == n.optionalPagesRevision +
                 if n.optionalPagesReady && n.optionalPages == pages then 0 else 1
  {
    assert Shows(n, pages) <==> n.optionalPages == pages;
  }

  // A client takes over the pages only while no save of a page is under way and nothing was shown
  // since the read began, or when nothing was shown at all.
  lemma TakenOptional(w: World, r: Read, n: Navigation)
    requires Flags(w) && OptionalShown(w) && r.answer.Some? && Known(w, r) && OptionalCall(w, r)
    requires n == w.front.navigation.(developerMode := n.developerMode, developerModeReady := n.developerModeReady)
    requires !w.front.dialog.optionalPending && OptionalTakes(w, r)
    ensures var next := w.(front := w.front.(navigation := SetOptionalPages(n, PagesOf(r.answer.value))));
            && next.front.navigation.optionalPagesReady
            && OptionalShown(next) && forall q :: Known(w, q) && OptionalCall(w, q) ==> OptionalCall(next, q)
  {
    hide PagesOf, DeveloperOf, ProtectionOf, SetOptionalPages;
    TakePages(n, PagesOf(r.answer.value));
  }

  // Nothing else in the state bears on the pages.
  lemma OptionalAlike(w: World, next: World)
    requires OptionalShown(w) && w.backend == next.backend && w.saves == next.saves
    requires w.front.dialog.optionalPending == next.front.dialog.optionalPending
    requires next.front.navigation ==
             w.front.navigation.(developerMode := next.front.navigation.developerMode,
                                 developerModeReady := next.front.navigation.developerModeReady)
    requires next.everRead ==> w.everRead || w.front.navigation.optionalPagesReady
    requires next.front.dialog.isOpen == w.front.dialog.isOpen
        && next.front.dialog.generation == w.front.dialog.generation
    ensures OptionalShown(next) && forall q :: Known(w, q) && OptionalCall(w, q) ==> OptionalCall(next, q)
  {
    hide PagesOf, DeveloperOf, ProtectionOf;
  }

  lemma DialogOptional(w: World, r: Read)
    requires Flags(w) && OptionalShown(w) && r.answer.Some? && Known(w, r) && OptionalCall(w, r) && r.client == ByDialog
    ensures OptionalShown(Returned(w, r, r.answer.value))
    ensures forall q :: Known(w, q) && OptionalCall(w, q) ==> OptionalCall(Returned(w, r, r.answer.value), q)
  {
    var d, answer := w.front.dialog, r.answer.value;
    var next := Returned(w, r, answer);
    if d.isOpen && r.generation == d.generation {
      var n := if !d.developerPending && r.developerRevision == d.developerRevision
               then SetDeveloperMode(w.front.navigation, DeveloperOf(answer)) else w.front.navigation;
      if !d.optionalPending && r.optionalRevision == n.optionalPagesRevision {
        TakenOptional(w, r, n);
        var taken := w.(front := w.front.(navigation := SetOptionalPages(n, PagesOf(answer))));
        hide PagesOf, SetOptionalPages, OptionalShown, OptionalCall, Flags, DeveloperOf, ProtectionOf;
        OptionalAlike(taken, next);
      } else {
        assert w.front.navigation.optionalPagesReady;
        hide PagesOf, SetOptionalPages, OptionalShown, OptionalCall, Flags, DeveloperOf, ProtectionOf;
        OptionalAlike(w, next);
      }
    }
  }

  lemma AppOptional(w: World, r: Read)
    requires Flags(w) && OptionalShown(w) && r.answer.Some? && Known(w, r) && OptionalCall(w, r) && r.client == ByApp
    ensures OptionalShown(Returned(w, r, r.answer.value))
    ensures forall q :: Known(w, q) && OptionalCall(w, q) ==> OptionalCall(Returned(w, r, r.answer.value), q)
  {
    var n := if !w.front.navigation.developerModeReady
             then SetDeveloperMode(w.front.navigation, DeveloperOf(r.answer.value)) else w.front.navigation;
    if !n.optionalPagesReady {
      TakenOptional(w, r, n);
    } else {
      hide PagesOf, SetOptionalPages, OptionalShown, OptionalCall, Flags, DeveloperOf, ProtectionOf, Known;
      OptionalAlike(w, Returned(w, r, r.answer.value));
    }
  }

  lemma ReturnedOptional(w: World, r: Read)
    requires Flags(w) && OptionalShown(w) && r.answer.Some? && Known(w, r) && OptionalCall(w, r)
    ensures OptionalShown(Returned(w, r, r.answer.value))
    ensures forall q :: Known(w, q) && OptionalCall(w, q) ==> OptionalCall(Returned(w, r, r.answer.value), q)
  {
    hide PagesOf, SetOptionalPages, OptionalShown, OptionalCall, Flags, DeveloperOf, ProtectionOf, DialogReads,
        AppReads, Known;
    match r.client
    case ByDialog => DialogOptional(w, r);
    case ByTerminal => OptionalAlike(w, Returned(w, r, r.answer.value));
    case ByApp => AppOptional(w, r);
  }

  // A save of one page shows that page's new value among the others.
  lemma TakePage(n: Navigation, page: Page, value: bool)
    requires n.optionalPages.Keys == {AiNews, AiCareer, LocalLlm}
    ensures var next, pages := SetOptionalPages(n, map[page := value]), n.optionalPages[page := value];
            && next.optionalPages == pages && pages.Keys == {AiNews, AiCareer, LocalLlm} && next.optionalPagesReady
            && next.optionalPagesRevision == n.optionalPagesRevision +
                 if n.optionalPagesReady && n.optionalPages == pages then 0 else 1
  {
    EveryPage(page);
    assert Shows(n, map[page := value]) <==> n.optionalPages[page] == value;
  }

  lemma ReachOptional(w: World, e: Event)
    requires Flags(w) && OptionalShown(w) && Enabled(w, e) && e.SaveReaches?
    ensures OptionalShown(Effect(w, e))
    ensures forall q :: q in w.calls && OptionalCall(w, q) ==> OptionalCall(Effect(w, e), q)
  {
    hide PagesOf, DeveloperOf, ProtectionOf, Saved;
    SavedFields(w.backend, w.saves[e.save].change);
  }

  lemma EndOptional(w: World, e: Event)
    requires Flags(w) && OptionalShown(w) && Enabled(w, e) && e.SaveEnds? && Harmless(w, e)
    ensures OptionalShown(Effect(w, e))
    ensures forall q :: q in w.calls && Known(w, q) && OptionalCall(w, q) ==> OptionalCall(Effect(w, e), q)
  {
    hide PagesOf, DeveloperOf, SetOptionalPages, ProtectionOf, AnyLanded, OtherLanded;
    var c := w.saves[e.save].change;
    if c.Optional? {
      TakePage(w.front.navigation, c.page, c.value);
    }
  }

  lemma EffectOptional(w: World, e: Event)
    requires Flags(w) && OptionalShown(w) && Enabled(w, e) && Harmless(w, e)
    requires e.ReadReturns? ==> Known(w, w.calls[e.read]) && OptionalCall(w, w.calls[e.read])
    ensures OptionalShown(Effect(w, e))
    ensures forall q :: q in w.calls && Known(w, q) && OptionalCall(w, q) ==> OptionalCall(Effect(w, e), q)
  {
    if e.ReadReturns? {
      ReturnedOptional(w, w.calls[e.read]);
    } else if e.SaveReaches? {
      ReachOptional(w, e);
    } else if e.SaveEnds? {
      EndOptional(w, e);
    } else if Opens(e) {
      PluginsOptional(w, e);
    } else {
      hide PagesOf, DeveloperOf, SetOptionalPages, ProtectionOf, Saved, Returned, End, EndToggle, Plugins, AnyLanded;
    }
  }

  lemma ReturnedFlags(w: World, r: Read, answer: Stored)
    requires Flags(w)
    ensures Flags(Returned(w, r, answer))
    ensures forall q :: Known(w, q) ==> Known(Returned(w, r, answer), q)
  {
    hide PagesOf, DeveloperOf, ProtectionOf, Shows;
  }

  lemma EffectFlags(w: World, e: Event)
    requires Flags(w) && Enabled(w, e)
    ensures Flags(Effect(w, e))
    ensures forall q :: Known(w, q) ==> Known(Effect(w, e), q)
  {
    if e.ReadReturns? {
      hide Returned, Known;
      ReturnedFlags(w, w.calls[e.read], w.calls[e.read].answer.value);
    } else if Opens(e) {
      RestoredFields(w, e);
      hide Effect, Enabled, Plugins;
    } else if e.SaveReaches? || e.SaveEnds? {
      hide PagesOf, DeveloperOf, ProtectionOf, Shows, Saved, Returned, Plugins;
    } else {
      hide Saved, Returned, Plugins, End, EndToggle;
    }
  }

  lemma EffectKeeps(w: World, e: Event)
    requires Shown(w) && Enabled(w, e) && (e.ReadReturns? ==> Calls(w, w.calls[e.read])) && Harmless(w, e)
    ensures Shown(Effect(w, e))
    ensures forall q :: q in w.calls && Calls(w, q) ==> Calls(Effect(w, e), q)
  {
    hide Flags, DeveloperShown, ProtectionShown, OptionalShown, DeveloperCall, ProtectionCall, OptionalCall, Effect;
    hide Known, Harmless;
    EffectFlags(w, e);
    EffectDeveloper(w, e);
    EffectProtection(w, e);
    EffectOptional(w, e);
  }

  // A read that just began or just reached the backend may show what it brings.
  lemma NewCalls(w: World, e: Event, q: Read)
    requires Enabled(w, e) && q in CallsAfter(w, e)
    requires forall r :: r in w.calls ==> Calls(w, r) && Calls(Effect(w, e), r)
    ensures Calls(Effect(w, e), q)
  {
    hide PagesOf, DeveloperOf, ProtectionOf, Plugins, Returned, End, EndToggle, Begin, Saved;
    if e.ReadReaches? {
      assert w.calls[e.read] in w.calls;
    }
  }

  // The shown values do not depend on the list of reads.
  lemma ListedKeeps(w: World, calls: seq<Read>)
    requires Shown(w) && forall q :: q in calls ==> Calls(w, q)
    ensures Inv(w.(calls := calls))
  {
    hide PagesOf, DeveloperOf, ProtectionOf;
  }

  lemma StepKeeps(w: World, e: Event)
    requires Inv(w) && Enabled(w, e) && Harmless(w, e)
    ensures Inv(Step(w, e))
  {
    hide Shown, Calls, Effect, CallsAfter, Harmless;
    EffectKeeps(w, e);
    forall q | q in CallsAfter(w, e) ensures Calls(Effect(w, e), q) {
      NewCalls(w, e, q);
    }
    ListedKeeps(Effect(w, e), CallsAfter(w, e));
  }

  // ---------- and no other step does ----------

  lemma HarmfulLate(w: World, e: Event)
    requires Inv(w) && Enabled(w, e) && Inv(Step(w, e)) && e.SaveEnds?
    ensures Harmless(w, e)
  {
    hide PagesOf, DeveloperOf, ProtectionOf, AnyLanded;
    if !e.ok && w.saves[e.save].applied {
      var c, next := w.saves[e.save].change, Step(w, e);
      if c.Protection? {
        forall r | r in w.calls && r.answer.Some? && ProtectionTakes(w, r)
          ensures ProtectionOf(r.answer.value) == c.value
        {
          assert Calls(next, r) && Known(w, r);
        }
      }
    }
  }

  lemma HarmfulOpening(w: World, e: Event)
    requires Inv(w) && Enabled(w, e) && Inv(Step(w, e)) && (e.PluginsRead? || e.PluginsFail? || e.PluginsDone?)
    ensures Harmless(w, e)
  {
    LandedChange(w, e);
    RestoredFields(w, e);
    hide Restored, PagesOf, DeveloperOf, ProtectionOf, AnyLanded, OtherLanded, LandedAt, Calls;
  }

  lemma HarmfulRestore(w: World, e: Event)
    requires Inv(w) && Enabled(w, e) && Inv(Step(w, e)) && e.PluginsSave?
    ensures Harmless(w, e)
  {
    var next := Step(w, e);
    RestoredFields(w, e);
    hide Effect, Restored, PagesOf, DeveloperOf, ProtectionOf, AnyLanded, OtherLanded, LandedAt;
    assert forall r :: r in w.calls ==> Calls(w, r) && Calls(next, r);
  }

  // A step from a state of the invariant keeps it exactly if it is harmless.
  lemma StepKeepsExactly(w: World, e: Event)
    requires Inv(w) && Enabled(w, e)
    ensures Inv(Step(w, e)) <==> Harmless(w, e)
  {
    hide Inv, Step;
    if Harmless(w, e) {
      StepKeeps(w, e);
    } else if Inv(Step(w, e)) {
      if e.SaveEnds? {
        HarmfulLate(w, e);
      } else if e.PluginsSave? {
        HarmfulRestore(w, e);
      } else {
        HarmfulOpening(w, e);
      }
    }
  }

  // ---------- runs ----------

  predicate AllEnabled(w: World, es: seq<Event>)
    decreases |es|
  {
    es == [] || (Enabled(w, es[0]) && AllEnabled(Step(w, es[0]), es[1..]))
  }

  predicate AllHarmless(w: World, es: seq<Event>)
    requires AllEnabled(w, es)
    decreases |es|
  {
    es == [] || (Harmless(w, es[0]) && AllHarmless(Step(w, es[0]), es[1..]))
  }

  function Run(w: World, es: seq<Event>): World
    requires AllEnabled(w, es)
    decreases |es|
  {
    if es == [] then w else Run(Step(w, es[0]), es[1..])
  }

  lemma {:induction false} RunKeeps(w: World, es: seq<Event>)
    requires Inv(w) && AllEnabled(w, es) && AllHarmless(w, es)
    ensures Inv(Run(w, es))
    decreases |es|
  {
    hide Inv, Step, Enabled, Harmless;
    if es != [] {
      StepKeeps(w, es[0]);
      RunKeeps(Step(w, es[0]), es[1..]);
    }
  }

  /** Before anything was read; the backend may hold anything. */
  predicate Start(w: World) {
    && w.calls == [] && w.saves == [] && w.openings == [] && !w.everRead
    && !w.front.navigation.developerMode && !w.front.navigation.developerModeReady
    && !w.front.navigation.optionalPagesReady && w.front.navigation.optionalPagesRevision == 0
    && w.front.navigation.optionalPages.Keys == {AiNews, AiCareer, LocalLlm}
    && w.front.store == Store(None, 0, false)
    && w.front.dialog.developerRevision == w.front.dialog.protectionRevision == 0
    && !w.front.dialog.settingsReady && !w.front.dialog.developerPending
    && !w.front.dialog.protectionPending && !w.front.dialog.optionalPending
  }

  /** The dialog's controls show what the backend has on file. */
  predicate DialogAgrees(w: World) {
    && w.front.navigation.developerMode == DeveloperOf(w.backend)
    && w.front.dialog.protectionEnabled == ProtectionOf(w.backend)
    && w.front.navigation.optionalPages == PagesOf(w.backend)
  }

  /** So do all controls, the terminal's too. */
  predicate Agrees(w: World) {
    DialogAgrees(w) && (w.front.store.enabled.Some? ==> w.front.store.enabled.value == ProtectionOf(w.backend))
  }

  /** No save has reached the backend without its client knowing. */
  predicate Settled(w: World) { (w.saves == [] || !w.saves[0].applied) && !AnyLanded(w.openings) }

  lemma StartsInv(w: World)
    requires Start(w)
    ensures Inv(w)
  {
  }

  lemma InvAgrees(w: World)
    requires Inv(w)
    ensures |w.saves| <= 1 && (w.front.store.pending <==> w.saves != []) && (w.everRead && Settled(w) ==> Agrees(w))
  {
    hide PagesOf, DeveloperOf, ProtectionOf, AnyLanded, Calls;
  }

  // Over every interleaving of opening, reading, saving and toggling, with both components mounted
  // and with failures and plugin openings that are harmless when they happen: at most one save is
  // under way, and once the dialog has taken a read, the controls show the backend's values whenever
  // no save has landed unnoticed.
  lemma EveryRun(w: World, es: seq<Event>)
    requires Start(w) && AllEnabled(w, es) && AllHarmless(w, es)
    ensures var now := Run(w, es);
            && |now.saves| <= 1
            && (now.front.store.pending <==> now.saves != [])
            && (now.everRead && Settled(now) ==> Agrees(now))
  {
    assert Inv(w) by { StartsInv(w); }
    RunKeeps(w, es);
    InvAgrees(Run(w, es));
  }

  // ---------- what was asked for ----------

  /** The setting that the change names has its value at the backend and on every control. */
  predicate Done(w: World, c: Change) {
    match c
    case Developer(value) => DeveloperOf(w.backend) == value && w.front.navigation.developerMode == value
    case Protection(value) =>
      && ProtectionOf(w.backend) == value
      && w.front.store.enabled == Some(value) && w.front.dialog.protectionEnabled == value
    case Optional(page, value) =>
      && page in PagesOf(w.backend) && PagesOf(w.backend)[page] == value
      && page in w.front.navigation.optionalPages && w.front.navigation.optionalPages[page] == value
  }

  /** The one save under way is of this change. */
  predicate Saves(w: World, c: Change, fromDialog: bool) {
    |w.saves| == 1 && w.saves[0].change == c && w.saves[0].fromDialog == fromDialog
  }

  predicate NoneEnds(es: seq<Event>) { forall i :: 0 <= i < |es| ==> !es[i].SaveEnds? }

  // While a save is under way no other begins, so it stays the one under way.
  lemma SaveStays(w: World, e: Event, c: Change, fromDialog: bool)
    requires Flags(w) && Enabled(w, e) && !e.SaveEnds? && Saves(w, c, fromDialog)
    ensures Saves(Step(w, e), c, fromDialog)
  {
    hide DialogReads, TerminalReads, AppReads, Begin, DeveloperOf, ProtectionOf, PagesOf;
  }

  lemma InvFlags(w: World)
    requires Inv(w)
    ensures Flags(w)
  {
  }

  lemma {:induction false} SaveLasts(w: World, es: seq<Event>, c: Change, fromDialog: bool)
    requires Inv(w) && AllEnabled(w, es) && AllHarmless(w, es) && NoneEnds(es) && Saves(w, c, fromDialog)
    ensures Inv(Run(w, es)) && Saves(Run(w, es), c, fromDialog)
    decreases |es|
  {
    hide Shown, Step, Enabled, Harmless, Saves, Calls;
    if es != [] {
      assert Flags(w) by { InvFlags(w); }
      StepKeeps(w, es[0]);
      SaveStays(w, es[0], c, fromDialog);
      SaveLasts(Step(w, es[0]), es[1..], c, fromDialog);
    }
  }

  // A save that succeeds leaves its value at the backend and on every control.
  lemma SuccessTells(w: World, c: Change, fromDialog: bool)
    requires Inv(w) && Saves(w, c, fromDialog) && w.saves[0].applied
    ensures Done(Step(w, SaveEnds(0, true)), c)
  {
    hide DeveloperOf, ProtectionOf, PagesOf, AnyLanded, Calls, SetOptionalPages;
    if c.Optional? {
      TakePage(w.front.navigation, c.page, c.value);
    }
  }

  // The dialog begins to save exactly what it was asked for, and when that save has succeeded, whatever
  // else happened meanwhile without harm, the backend has the value and every control shows it.
  lemma ChangeIsDone(w: World, c: Change, es: seq<Event>)
    requires Inv(w) && !Blocked(w.front)
    requires AllEnabled(Step(w, Change(c)), es) && AllHarmless(Step(w, Change(c)), es) && NoneEnds(es)
    ensures Saves(Step(w, Change(c)), c, true) && !Step(w, Change(c)).saves[0].applied
    ensures var last := Run(Step(w, Change(c)), es);
            |last.saves| == 1 && (last.saves[0].applied ==> Done(Step(last, SaveEnds(0, true)), c))
  {
    hide Inv, AllEnabled, AllHarmless, Run, Done;
    StepKeeps(w, Change(c));
    InvFlags(w);
    SaveLasts(Step(w, Change(c)), es, c, true);
    var last := Run(Step(w, Change(c)), es);
    if last.saves[0].applied {
      SuccessTells(last, c, true);
    }
  }

  // So does the terminal's toggle.
  lemma ToggleIsDone(w: World, value: bool, es: seq<Event>)
    requires Inv(w) && w.terminal.ready && !w.front.store.pending
    requires AllEnabled(Step(w, Toggle(value)), es) && AllHarmless(Step(w, Toggle(value)), es) && NoneEnds(es)
    ensures Saves(Step(w, Toggle(value)), Protection(value), false) && !Step(w, Toggle(value)).saves[0].applied
    ensures var last := Run(Step(w, Toggle(value)), es);
            |last.saves| == 1 &&
            (last.saves[0].applied ==> Done(Step(last, SaveEnds(0, true)), Protection(value)))
  {
    hide Inv, AllEnabled, AllHarmless, Run, Done;
    StepKeeps(w, Toggle(value));
    InvFlags(w);
    SaveLasts(Step(w, Toggle(value)), es, Protection(value), false);
    var last := Run(Step(w, Toggle(value)), es);
    if last.saves[0].applied {
      SuccessTells(last, Protection(value), false);
    }
  }

  /** The save reaches the backend and succeeds. */
  const SUCCEEDS: seq<Event> := [SaveReaches(0), SaveEnds(0, true)]

  lemma SaveCanSucceed(w: World, c: Change, fromDialog: bool)
    requires Inv(w) && Saves(w, c, fromDialog) && !w.saves[0].applied
    ensures AllEnabled(w, SUCCEEDS) && AllHarmless(w, SUCCEEDS) && Done(Run(w, SUCCEEDS), c)
  {
    hide Inv, Done, Saved, End, EndToggle;
    var reached := Step(w, SaveReaches(0));
    StepKeeps(w, SaveReaches(0));
    assert Saves(reached, c, fromDialog) && reached.saves[0].applied;
    SuccessTells(reached, c, fromDialog);
    assert SUCCEEDS[1..] == [SaveEnds(0, true)] && SUCCEEDS[1..][1..] == [];
  }

  // ---------- failures after the fact ----------

  /** The value of a save is on screen. */
  predicate IsShown(w: World, c: Change) {
    match c
    case Developer(value) => w.front.navigation.developerMode == value
    case Protection(value) => w.front.dialog.protectionEnabled == value && w.front.store.enabled in {None, Some(value)}
    case Optional(page, value) =>
      page in w.front.navigation.optionalPages && w.front.navigation.optionalPages[page] == value
  }

  // Whoever saved: if a save fails after the backend has it, the controls are right afterwards
  // exactly when its value was on screen.
  lemma LateFailure(w: World)
    requires Inv(w) && w.everRead && !AnyLanded(w.openings) && |w.saves| == 1 && w.saves[0].applied
    ensures Agrees(Effect(w, SaveEnds(0, false))) <==> IsShown(w, w.saves[0].change)
  {
    hide PagesOf, DeveloperOf, ProtectionOf, AnyLanded, Calls;
  }

  // ---------- a read puts the dialog right ----------

  /** The dialog takes over all that the read brings: it is open since the read began, nothing is
      pending and no setting moved. */
  predicate TakesAll(f: Front, r: Read) {
    var d := f.dialog;
    && r.client.ByDialog? && d.isOpen && r.generation == d.generation
    && !d.developerPending && r.developerRevision == d.developerRevision
    && !d.protectionPending && r.protectionRevision == d.protectionRevision && r.sharedRevision == f.store.revision
    && !d.optionalPending && r.optionalRevision == f.navigation.optionalPagesRevision
  }

  predicate AllPages(f: Front) { f.navigation.optionalPages.Keys == {AiNews, AiCareer, LocalLlm} }

  lemma TakenOver(f: Front, r: Read, answer: Stored)
    requires AllPages(f) && TakesAll(f, r)
    ensures var next := DialogReads(f, r, answer);
            && next.navigation.developerMode == DeveloperOf(answer)
            && next.dialog.protectionEnabled == ProtectionOf(answer)
            && next.navigation.optionalPages == PagesOf(answer)
  {
    hide PagesOf, DeveloperOf, ProtectionOf;
    TakePages(SetDeveloperMode(f.navigation, DeveloperOf(answer)), PagesOf(answer));
  }

  /** A save or the save of a plugin opening reaches the backend. */
  predicate Lands(e: Event) { e.SaveReaches? || e.PluginsSave? }

  predicate NoneLands(es: seq<Event>) { forall i :: 0 <= i < |es| ==> !Lands(es[i]) }

  /** Where a read stands in the list after an event, if it is still under way. */
  function Follow(i: nat, e: Event): Option<nat> {
    if !e.ReadReturns? && !e.ReadFails? then Some(i)
    else if e.read == i then None
    else Some(if e.read < i then i - 1 else i)
  }

  function FollowAll(i: nat, es: seq<Event>): Option<nat>
    decreases |es|
  {
    if es == [] then Some(i)
    else match Follow(i, es[0])
      case None => None
      case Some(next) => FollowAll(next, es[1..])
  }

  // An answered read keeps its answer while it is under way.
  lemma FollowStep(w: World, e: Event, i: nat)
    requires Enabled(w, e) && i < |w.calls| && w.calls[i].answer.Some? && Follow(i, e).Some?
    ensures var j := Follow(i, e).value; j < |Step(w, e).calls| && Step(w, e).calls[j] == w.calls[i]
  {
    hide Effect;
  }

  lemma QuietStep(w: World, e: Event)
    requires Enabled(w, e) && !Lands(e)
    ensures Step(w, e).backend == w.backend
  {
    hide DialogReads, TerminalReads, AppReads, Begin, End, EndToggle, SetDeveloperMode, Blocked;
  }

  lemma PagesAfter(n: Navigation, pages: map<Page, bool>)
    requires n.optionalPages.Keys == {AiNews, AiCareer, LocalLlm}
    ensures SetOptionalPages(n, pages).optionalPages.Keys == {AiNews, AiCareer, LocalLlm}
  {
    forall page | page in pages ensures page in {AiNews, AiCareer, LocalLlm} {
      EveryPage(page);
    }
  }

  lemma StepKeepsPages(w: World, e: Event)
    requires Enabled(w, e) && AllPages(w.front)
    ensures AllPages(Step(w, e).front)
  {
    hide PagesOf, DeveloperOf, ProtectionOf, SetOptionalPages, Saved, Restored;
    if e.ReadReturns? {
      var r := w.calls[e.read];
      var n := w.front.navigation;
      PagesAfter(n, PagesOf(r.answer.value));
      PagesAfter(SetDeveloperMode(n, DeveloperOf(r.answer.value)), PagesOf(r.answer.value));
    } else if e.SaveEnds? && w.saves[e.save].change.Optional? {
      PagesAfter(w.front.navigation, map[w.saves[e.save].change.page := w.saves[e.save].change.value]);
    }
  }

  lemma {:induction false} RunFollows(w: World, es: seq<Event>, i: nat)
    requires AllEnabled(w, es) && AllPages(w.front)
    requires i < |w.calls| && w.calls[i].answer.Some? && FollowAll(i, es).Some?
    ensures var last, j := Run(w, es), FollowAll(i, es).value;
            && j < |last.calls| && last.calls[j] == w.calls[i] && AllPages(last.front)
            && (NoneLands(es) ==> last.backend == w.backend)
    decreases |es|
  {
    hide Step, Enabled, Follow, AllPages, Lands;
    if es != [] {
      FollowStep(w, es[0], i);
      if NoneLands(es) {
        QuietStep(w, es[0]);
      }
      StepKeepsPages(w, es[0]);
      RunFollows(Step(w, es[0]), es[1..], Follow(i, es[0]).value);
    }
  }

  /** The three settings are the same, as the clients decode them. */
  predicate SameSettings(b: Stored, b': Stored) {
    DeveloperOf(b) == DeveloperOf(b') && ProtectionOf(b) == ProtectionOf(b') && PagesOf(b) == PagesOf(b')
  }

  lemma TakenByDialog(f: Front, r: Read)
    requires TakesAll(f, r)
    ensures r.client.ByDialog?
  {
  }

  // Whatever went wrong before and whatever happens meanwhile: when the dialog takes over a read, all
  // its controls are right exactly if the backend has the settings it answered with, as it does when no
  // save has landed since.
  lemma ReadHeals(w: World, i: nat, es: seq<Event>)
    requires Enabled(w, ReadReaches(i)) && AllPages(w.front)
    requires AllEnabled(Step(w, ReadReaches(i)), es) && FollowAll(i, es).Some?
    ensures var last, j := Run(Step(w, ReadReaches(i)), es), FollowAll(i, es).value;
            && Enabled(last, ReadReturns(j))
            && (TakesAll(last.front, last.calls[j]) ==>
                  (DialogAgrees(Step(last, ReadReturns(j))) <==> SameSettings(w.backend, last.backend)))
            && (NoneLands(es) ==> last.backend == w.backend)
  {
    hide AllEnabled, Run, FollowAll, NoneLands, PagesOf, DeveloperOf, ProtectionOf, DialogReads, TakesAll;
    var first := Step(w, ReadReaches(i));
    RunFollows(first, es, i);
    var last, j := Run(first, es), FollowAll(i, es).value;
    if TakesAll(last.front, last.calls[j]) {
      assert last.calls[j].client.ByDialog? by { TakenByDialog(last.front, last.calls[j]); }
      TakenOver(last.front, last.calls[j], w.backend);
    }
  }

  /** The dialog opens, and its read comes back before anything else happens. */
  function Reopened(w: World): seq<Event> { [Open, ReadReaches(|w.calls|), ReadReturns(|w.calls|)] }

  predicate Leads(ws: seq<World>, es: seq<Event>) {
    |ws| == |es| + 1 && forall i :: 0 <= i < |es| ==> Enabled(ws[i], es[i]) && Step(ws[i], es[i]) == ws[i + 1]
  }

  /** The worlds of such a reopening. */
  function Asking(w: World): World {
    var d := w.front.dialog.(isOpen := true, generation := w.front.dialog.generation + 1);
    w.(front := w.front.(dialog := d), calls := w.calls + [ReadOf(ByDialog, d.generation, w.front)])
  }

  function Replied(w: World): World {
    var asking := Asking(w);
    asking.(calls := w.calls + [asking.calls[|w.calls|].(answer := Some(w.backend))])
  }

  function Healed(w: World): World {
    var asked := Replied(w);
    asked.(front := DialogReads(asked.front, asked.calls[|w.calls|], w.backend), everRead := true, calls := w.calls)
  }

  lemma ReopenedLeads(w: World)
    ensures Leads([w, Asking(w), Replied(w), Healed(w)], Reopened(w))
  {
    hide PagesOf, DeveloperOf, ProtectionOf, DialogReads;
    var es := Reopened(w);
    assert Step(w, es[0]) == Asking(w);
    assert Step(Asking(w), es[1]) == Replied(w);
    assert RemoveAt(Replied(w).calls, |w.calls|) == w.calls;
    assert Step(Replied(w), es[2]) == Healed(w);
  }

  // A list of worlds that lead to each other is a run.
  lemma {:induction false} Chain(ws: seq<World>, es: seq<Event>, k: nat)
    requires Leads(ws, es) && k <= |es|
    ensures AllEnabled(ws[k], es[k..]) && Run(ws[k], es[k..]) == ws[|es|]
    decreases |es| - k
  {
    hide Step, Enabled;
    if k < |es| {
      Chain(ws, es, k + 1);
      assert es[k..][0] == es[k] && es[k..][1..] == es[k + 1..];
    }
  }

  // From every state in which the dialog saves nothing there is such a run: reopening it.
  lemma ReopeningHeals(w: World)
    requires AllPages(w.front)
    requires !w.front.dialog.developerPending && !w.front.dialog.protectionPending && !w.front.dialog.optionalPending
    ensures AllEnabled(w, Reopened(w)) && DialogAgrees(Run(w, Reopened(w)))
  {
    var es := Reopened(w);
    ReopenedLeads(w);
    TakenOver(Asking(w).front, Replied(w).calls[|w.calls|], w.backend);
    hide Leads, AllEnabled, Run, Asking, Replied, Returned, DialogReads, PagesOf, DeveloperOf, ProtectionOf;
    Chain([w, Asking(w), Replied(w), Healed(w)], es, 0);
    assert es[0..] == es;
  }
}
