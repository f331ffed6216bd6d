// What each event does to the controls and to what is on file.
module SettingsEffects {
  import opened Common
  import opened SettingsModel
  import opened SettingsProtocol

  // ---------- opening and closing ----------

  // A closed dialog ignores every read, and one that was opened again ignores those of earlier openings.
  lemma StaleReadIsIgnored(w: World, i: nat)
    requires Enabled(w, ReadReturns(i)) && w.calls[i].client.ByDialog? && !Live(w, w.calls[i])
    ensures Step(w, ReadReturns(i)).front == w.front
  {
  }

  lemma ClosingEndsReads(w: World, r: Read)
    requires r.client.ByDialog?
    ensures !Live(Step(w, Close), r) && Step(w, Close).front == w.front.(dialog := w.front.dialog.(isOpen := false))
  {
  }

  /** Nothing has moved since the read began. */
  predicate TakesRevisions(f: Front, r: Read) {
    && r.developerRevision == f.dialog.developerRevision && r.protectionRevision == f.dialog.protectionRevision
    && r.optionalRevision == f.navigation.optionalPagesRevision && r.sharedRevision == f.store.revision
  }

  // Opening asks for the settings in a read of its own that no earlier read can be taken for; until the
  // dialog is closed or opened again, that is the one it listens to.
  lemma OpeningAsks(w: World)
    ensures var next := Step(w, Open);
            && next.calls == w.calls + [next.calls[|w.calls|]]
            && (var r := next.calls[|w.calls|];
                && r.client.ByDialog? && r.answer.None? && Live(next, r) && TakesRevisions(next.front, r))
            && (forall r :: r in w.calls && r.client.ByDialog? && Known(w, r) ==> !Live(next, r))
            && next.front.navigation == w.front.navigation && next.front.store == w.front.store
  {
  }

  // After opening, the controls cannot be changed until a read of this opening has come back.
  lemma OpeningBlocks(w: World)
    ensures var reopened := Step(w, Open);
            Blocked(Step(reopened, Unready(reopened.front.dialog.generation)).front)
    ensures forall g :: !w.front.dialog.isOpen || g != w.front.dialog.generation ==> Step(w, Unready(g)) == w
  {
  }

  lemma ReadUnblocks(w: World, i: nat)
    requires Inv(w) && Enabled(w, ReadReturns(i)) && w.calls[i].client.ByDialog? && Live(w, w.calls[i])
    requires w.saves == []
    ensures !Blocked(Step(w, ReadReturns(i)).front) && Step(w, ReadReturns(i)).everRead
  {
    hide PagesOf, DeveloperOf, ProtectionOf, SetOptionalPages;
  }

  // ---------- the other readers ----------

  // The terminal's read makes its toggle usable and publishes what was on file, unless something was
  // published meanwhile; one of an earlier mounting changes nothing.
  lemma TerminalReadReturns(w: World, i: nat)
    requires Enabled(w, ReadReturns(i)) && w.calls[i].client.ByTerminal?
    ensures var r, next := w.calls[i], Step(w, ReadReturns(i));
            if !Live(w, r) then next.front == w.front && next.terminal == w.terminal
            else
              && next.terminal == w.terminal.(ready := true)
              && next.front.navigation == w.front.navigation
              && (if r.sharedRevision == w.front.store.revision then
                    && next.front.store.enabled == Some(ProtectionOf(r.answer.value))
                    && next.front.store.revision > w.front.store.revision
                    && (!w.front.dialog.protectionPending ==>
                          next.front.dialog.protectionEnabled == ProtectionOf(r.answer.value))
                  else next.front == w.front)
  {
  }

  // Mounting asks for the settings, with the toggle unusable until they are there; unmounting makes the
  // terminal deaf to them.
  lemma MountingAsks(w: World)
    ensures var next := Step(w, TerminalMounts);
            && next.calls == w.calls + [next.calls[|w.calls|]] && next.front == w.front && !next.terminal.ready
            && (var r := next.calls[|w.calls|]; r.client.ByTerminal? && r.answer.None? && Live(next, r))
            && (forall r :: r in w.calls && r.client.ByTerminal? && Known(w, r) ==> !Live(next, r))
    ensures forall r: Read :: r.client.ByTerminal? ==> !Live(Step(w, TerminalUnmounts), r)
  {
  }

  // The application's first read fills in what no one has shown yet, and nothing else.
  lemma AppReadReturns(w: World, i: nat)
    requires Enabled(w, ReadReturns(i)) && w.calls[i].client.ByApp? && AllPages(w.front)
    ensures var n, next := w.front.navigation, Step(w, ReadReturns(i)).front.navigation;
            var answer := w.calls[i].answer.value;
            && next.developerModeReady && next.optionalPagesReady
            && next.developerMode == (if n.developerModeReady then n.developerMode else DeveloperOf(answer))
            && next.optionalPages == (if n.optionalPagesReady then n.optionalPages else PagesOf(answer))
    ensures var next := Step(w, ReadReturns(i)); next.front == w.front.(navigation := next.front.navigation)
  {
    hide PagesOf, DeveloperOf, ProtectionOf, SetOptionalPages;
    var n := w.front.navigation;
    TakePages(if n.developerModeReady then n else SetDeveloperMode(n, DeveloperOf(w.calls[i].answer.value)),
        PagesOf(w.calls[i].answer.value));
  }

  // A read brings what is on file when it reaches the backend.
  lemma ReadBringsFile(w: World, i: nat)
    requires Enabled(w, ReadReaches(i))
    ensures var next := Step(w, ReadReaches(i));
            next == w.(calls := next.calls) && |next.calls| == |w.calls| && next.calls[i].answer == Some(w.backend)
  {
  }

  // ---------- the account plugins ----------

  // What an opening writes back: developer mode on, the protection it read if there was one on file, and
  // the pages it read.
  lemma RestoredSettings(b: Stored, read: Stored, page: Page)
    ensures DeveloperOf(Restored(b, read))
    ensures ProtectionOf(Restored(b, read)) == ProtectionOf(if read.protection.Some? then read else b)
    ensures page in PagesOf(b) && PagesOf(Restored(b, read))[page] ==
            (if page in read.pages then read.pages[page] else PagesOf(b)[page])
  {
    EveryPage(page);
  }

  predicate ShowsDeveloper(w: World) { w.front.navigation.developerMode && w.front.navigation.developerModeReady }

  lemma DeveloperShownOn(n: Navigation)
    ensures var next := SetDeveloperMode(n, true); next.developerMode && next.developerModeReady
  {
  }

  // An opening shows developer mode as on at once if it is shown already; otherwise it asks for the settings
  // and gets those on file.
  lemma OpeningBegins(w: World, i: nat)
    ensures var next := Step(w, PluginsOpen);
            if w.front.navigation.developerMode then next.openings == w.openings && ShowsDeveloper(next)
            else next.openings == w.openings + [Asked] && next.front == w.front
    ensures Enabled(w, PluginsReach(i)) ==>
              Step(w, PluginsReach(i)) == w.(openings := w.openings[i := Answered(w.backend)])
  {
    hide SetDeveloperMode;
    DeveloperShownOn(w.front.navigation);
  }

  // It shows developer mode as on when it finds it so in its answer, or when its save has come back; until
  // then it shows nothing, nor if a call fails.
  lemma OpeningAnswered(w: World, i: nat)
    requires Enabled(w, PluginsRead(i))
    ensures var settings, next := w.openings[i].settings, Step(w, PluginsRead(i));
            if settings.developer == Some(true) then
              next.openings == RemoveAt(w.openings, i) && ShowsDeveloper(next)
            else next == w.(openings := w.openings[i := Saving(settings, false)])
  {
  }

  lemma OpeningEnds(w: World, i: nat)
    requires i < |w.openings|
    ensures Enabled(w, PluginsDone(i)) ==>
              var next := Step(w, PluginsDone(i)); next.openings == RemoveAt(w.openings, i) && ShowsDeveloper(next)
    ensures Step(w, PluginsFail(i)) == w.(openings := RemoveAt(w.openings, i))
  {
    hide RemoveAt;
  }

  lemma OpeningSaves(w: World, i: nat)
    requires Enabled(w, PluginsSave(i))
    ensures var next := Step(w, PluginsSave(i));
            && next.front == w.front && next.openings == w.openings[i := Saving(w.openings[i].settings, true)]
            && next.backend.developer == Some(true)
  {
  }

  // ---------- a save that fails ----------

  // A save that fails changes no control, and the next one can begin.
  lemma FailureChangesNothing(w: World)
    requires Inv(w) && |w.saves| == 1
    ensures var next := Step(w, SaveEnds(0, false));
            && next.front.navigation == w.front.navigation && next.backend == w.backend
            && next.front.store.enabled == w.front.store.enabled
            && next.front.dialog.protectionEnabled == w.front.dialog.protectionEnabled
            && next.saves == [] && (next.front.dialog.settingsReady ==> !Blocked(next.front))
  {
    hide PagesOf, DeveloperOf, ProtectionOf, Calls, AnyLanded, DeveloperShown, ProtectionShown, OptionalShown;
  }
}
