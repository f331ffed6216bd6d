// Two runs that end with controls that are wrong though nothing is under way.
module SettingsFailures {
  import opened Common
  import opened SettingsModel
  import opened SettingsProtocol

  const ALL_ON: map<Page, bool> := map[AiNews := true, AiCareer := true, LocalLlm := true]
  const LOCAL_OFF: map<Page, bool> := map[AiNews := true, AiCareer := true, LocalLlm := false]

  function Fresh(backend: Stored): World {
    World(backend, Front(Navigation(false, false, ALL_ON, false, 0), Store(None, 0, false),
                         Dialog(false, 0, false, false, 0, false, 0, false, false)),
          Terminal(false, 0, false), [], [], [], false)
  }

  /** The read of the first opening of the dialog. */
  function FirstRead(answer: Option<Stored>): Read { Read(ByDialog, 1, 0, 0, 0, 0, answer) }

  // ---------- a save that fails late ----------

  /** With the local-model page off on file, any save can fail after it was stored: the server that is
      to be stopped again may not stop. Here it is a save of developer mode. */
  const LATE: seq<Event> :=
    [Open, ReadReaches(0), ReadReturns(0), Change(Developer(false)), SaveReaches(0), SaveEnds(0, false)]

  const ON_FILE := Stored(None, None, map[LocalLlm := false])

  function Opened(w: World): World { w.(front := w.front.(dialog := w.front.dialog.(isOpen := true, generation := 1))) }

  function Taken(): World {
    World(ON_FILE, Front(Navigation(true, true, LOCAL_OFF, true, 1), Store(None, 0, false),
                         Dialog(true, 1, true, false, 0, false, 0, false, false)),
          Terminal(false, 0, false), [], [], [], true)
  }

  function Changing(applied: bool): World {
    World(if applied then Stored(Some(false), None, map[LocalLlm := false]) else ON_FILE,
          Front(Navigation(true, true, LOCAL_OFF, true, 1), Store(None, 0, true),
                Dialog(true, 1, true, false, 1, true, 0, false, false)),
          Terminal(false, 0, false), [], [Save(true, Developer(false), applied)], [], true)
  }

  function LateWorlds(): seq<World> {
    [Fresh(ON_FILE), Opened(Fresh(ON_FILE)).(calls := [FirstRead(None)]),
     Opened(Fresh(ON_FILE)).(calls := [FirstRead(Some(ON_FILE))]), Taken(), Changing(false), Changing(true),
     Changing(true).(saves := [], front := Front(Navigation(true, true, LOCAL_OFF, true, 1), Store(None, 0, false),
                                                Dialog(true, 1, true, false, 2, false, 0, false, false)))]
  }

  lemma LocalOffOnFile(developer: Option<bool>)
    ensures PagesOf(Stored(developer, None, map[LocalLlm := false])) == LOCAL_OFF
  {
  }

  lemma LateStep(k: nat)
    requires k < 6
    ensures Enabled(LateWorlds()[k], LATE[k]) && Step(LateWorlds()[k], LATE[k]) == LateWorlds()[k + 1]
  {
    LocalOffOnFile(None);
    hide PagesOf;
    if k == 0 {
    } else if k == 1 {
    } else if k == 2 {
      TakePages(Navigation(true, true, ALL_ON, false, 0), LOCAL_OFF);
    } else if k == 3 {
    } else if k == 4 {
    } else {
    }
  }

  lemma LateLeads()
    ensures Leads(LateWorlds(), LATE)
  {
    forall k | 0 <= k < 6
      ensures Enabled(LateWorlds()[k], LATE[k]) && Step(LateWorlds()[k], LATE[k]) == LateWorlds()[k + 1]
    {
      hide Step, Enabled;
      LateStep(k);
    }
    hide Step, Enabled;
  }

  lemma LateEnds()
    ensures LateWorlds()[0] == Fresh(ON_FILE) && Start(LateWorlds()[0])
    ensures var last := LateWorlds()[6];
            last.everRead && last.calls == [] && last.saves == [] && last.openings == [] && !Agrees(last)
  {
  }

  /** The run ends with nothing under way, and the controls are wrong. */
  predicate EndsWrong(start: World, es: seq<Event>) {
    && Start(start) && AllEnabled(start, es)
    && var last := Run(start, es);
       last.everRead && last.calls == [] && last.saves == [] && last.openings == [] && !Agrees(last)
  }

  // A dialog that reads and saves once ends wrong when that save fails late.
  lemma LateFailureReachable()
    ensures EndsWrong(Fresh(ON_FILE), LATE)
  {
    LateLeads();
    LateEnds();
    hide LateWorlds, Leads, Agrees, Start, AllEnabled, Run;
    Chain(LateWorlds(), LATE, 0);
    assert LATE[0..] == LATE;
  }

  // ---------- an opening of the account plugins beside a read of the dialog ----------

  const PLUGINS: seq<Event> :=
    [Open, ReadReaches(0), PluginsOpen, PluginsReach(0), PluginsRead(0), PluginsSave(0), PluginsDone(0), ReadReturns(0)]

  const DEVELOPER_OFF := Stored(Some(false), None, map[LocalLlm := false])
  const DEVELOPER_ON := Stored(Some(true), None, map[LocalLlm := false])

  /** The dialog's read has its answer and waits while the account plugins open. */
  function Reading(backend: Stored, shown: bool, openings: seq<Opening>): World {
    World(backend, Front(Navigation(shown, shown, ALL_ON, false, 0), Store(None, 0, false),
                         Dialog(true, 1, false, false, 0, false, 0, false, false)),
          Terminal(false, 0, false), [FirstRead(Some(DEVELOPER_OFF))], [], openings, false)
  }

  /** The end of the run: the read comes back. */
  function Overwritten(): World {
    World(DEVELOPER_ON, Front(Navigation(false, true, LOCAL_OFF, true, 1), Store(None, 0, false),
                              Dialog(true, 1, true, false, 0, false, 0, false, false)),
          Terminal(false, 0, false), [], [], [], true)
  }

  function PluginsWorlds(): seq<World> {
    [Fresh(DEVELOPER_OFF), Opened(Fresh(DEVELOPER_OFF)).(calls := [FirstRead(None)]), Reading(DEVELOPER_OFF, false, []),
     Reading(DEVELOPER_OFF, false, [Asked]), Reading(DEVELOPER_OFF, false, [Answered(DEVELOPER_OFF)]),
     Reading(DEVELOPER_OFF, false, [Saving(DEVELOPER_OFF, false)]),
     Reading(DEVELOPER_ON, false, [Saving(DEVELOPER_OFF, true)]),
     Reading(DEVELOPER_ON, true, []), Overwritten()]
  }

  lemma PluginsFirst(k: nat)
    requires k < 4
    ensures Enabled(PluginsWorlds()[k], PLUGINS[k]) && Step(PluginsWorlds()[k], PLUGINS[k]) == PluginsWorlds()[k + 1]
  {
    hide PagesOf;
    if k == 0 {
    } else if k == 1 {
    } else if k == 2 {
    } else {
    }
  }

  lemma PluginsNext(k: nat)
    requires 4 <= k < 7
    ensures Enabled(PluginsWorlds()[k], PLUGINS[k]) && Step(PluginsWorlds()[k], PLUGINS[k]) == PluginsWorlds()[k + 1]
  {
    hide PagesOf;
    if k == 4 {
    } else if k == 5 {
    } else {
    }
  }

  lemma PluginsReturn()
    ensures Enabled(Reading(DEVELOPER_ON, true, []), ReadReturns(0))
    ensures Step(Reading(DEVELOPER_ON, true, []), ReadReturns(0)) == Overwritten()
  {
    LocalOffOnFile(Some(false));
    hide PagesOf;
    TakePages(Navigation(false, true, ALL_ON, false, 0), LOCAL_OFF);
  }

  lemma PluginsLead()
    ensures Leads(PluginsWorlds(), PLUGINS)
  {
    forall k | 0 <= k < 8
      ensures Enabled(PluginsWorlds()[k], PLUGINS[k]) && Step(PluginsWorlds()[k], PLUGINS[k]) == PluginsWorlds()[k + 1]
    {
      hide Step, Enabled;
      if k < 4 {
        PluginsFirst(k);
      } else if k < 7 {
        PluginsNext(k);
      } else {
        PluginsReturn();
      }
    }
    hide Step, Enabled;
  }

  lemma PluginsEnd()
    ensures PluginsWorlds()[0] == Fresh(DEVELOPER_OFF) && Start(PluginsWorlds()[0])
    ensures var last := PluginsWorlds()[8];
            last.everRead && last.calls == [] && last.saves == [] && last.openings == [] && !Agrees(last)
  {
  }

  // No call fails here: the read that the dialog began before the account plugins opened brings
  // developer mode back to off on screen, while it is on at the backend.
  lemma PluginsBreakIt()
    ensures EndsWrong(Fresh(DEVELOPER_OFF), PLUGINS)
  {
    PluginsLead();
    PluginsEnd();
    hide PluginsWorlds, Leads, Agrees, Start, AllEnabled, Run;
    Chain(PluginsWorlds(), PLUGINS, 0);
    assert PLUGINS[0..] == PLUGINS;
  }
}
