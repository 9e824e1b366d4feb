/** The tutorial screen: six levels, each a video and a one-question quiz. A level
    unlocks once the previous one is completed, a correct answer records the level
    and the progress percentage, and the progress survives in browser storage. */
module Tutorials {
  import opened Wrappers

  datatype Quiz = Quiz(question: string, options: seq<string>, correct: int)

  datatype Tutorial = Tutorial(
    id: int,
    title: string,
    difficulty: string,
    badgeName: string,
    quiz: Quiz)

  /** The level table, in level order. */
  const Catalog: seq<Tutorial> := [
    Tutorial(1, "Introducción al Torno CNC", "Principiante", "Explorador",
      Quiz("¿Qué significa CNC?",
        ["Control Numérico Computarizado", "Centro de Navegación Central",
         "Comando Numérico de Control", "Computadora Numérica Central"], 0)),
    Tutorial(2, "Navegación en el Simulador", "Principiante", "Navegador",
      Quiz("¿Cuál es la función principal del panel de control?",
        ["Solo mostrar información", "Controlar todas las operaciones del torno",
         "Decorar la interfaz", "Ninguna de las anteriores"], 1)),
    Tutorial(3, "Programación en G-Code", "Intermedio", "Programador",
      Quiz("¿Qué comando G se usa para movimiento lineal?",
        ["G00", "G01", "G02", "G03"], 1)),
    Tutorial(4, "Simulación de Operaciones", "Intermedio", "Operador",
      Quiz("¿Qué operación se usa para crear superficies cilíndricas?",
        ["Fresado", "Torneado", "Taladrado", "Lijado"], 1)),
    Tutorial(5, "Optimización de Parámetros", "Avanzado", "Optimizador",
      Quiz("¿Qué factor NO afecta la velocidad de corte?",
        ["Diámetro de la pieza", "Velocidad del husillo",
         "Color de la herramienta", "Material de la pieza"], 2)),
    Tutorial(6, "Resolución de Problemas", "Avanzado", "Técnico",
      Quiz("¿Qué indica una vibración excesiva durante el torneado?",
        ["Todo está funcionando perfectamente", "Posible desbalanceo o parámetros incorrectos",
         "La máquina está nueva", "Es normal en todas las operaciones"], 1))
  ]

  const WrongAnswerAlert := "Respuesta incorrecta. ¡Inténtalo de nuevo!"
  const LockedLevelAlert := "Debes completar el nivel anterior primero"
  const UnknownDifficultyColor := "#9E9E9E"

  /** The table is well formed: ids 1..6 in level order, four options per quiz and an
      answer index inside them. */
  lemma CatalogWellFormed()
    ensures |Catalog| == 6
    ensures forall k :: 0 <= k < |Catalog| ==> Catalog[k].id == k + 1
    ensures forall k :: 0 <= k < |Catalog| ==>
      |Catalog[k].quiz.options| == 4 && 0 <= Catalog[k].quiz.correct < 4
  {
  }

  /** `getDifficultyColor`: green, orange and red for the three levels, grey otherwise. */
  function DifficultyColor(difficulty: string): (color: string)
    ensures color != UnknownDifficultyColor <==>
      difficulty in {"Principiante", "Intermedio", "Avanzado"}
  {
    match difficulty
    case "Principiante" => "#4CAF50"
    case "Intermedio" => "#FF9800"
    case "Avanzado" => "#F44336"
    case _ => UnknownDifficultyColor
  }

  /** No level of the table falls back to the grey of an unknown difficulty. */
  lemma CatalogColorsKnown()
    ensures forall k :: 0 <= k < |Catalog| ==>
      DifficultyColor(Catalog[k].difficulty) != UnknownDifficultyColor
  {
  }

  /** `Math.round(done / 6 * 100)`: the percentage of the six levels, rounded half up.
      The exact quotient has fractional part 0, 1/3 or 2/3, so the rounding never
      meets a tie and is exact in integer arithmetic. */
  function ProgressPercent(done: nat): (p: nat)
    ensures (p as real) - 0.5 <= (done as real) * 100.0 / 6.0 < (p as real) + 0.5
    ensures p <= 100 <==> done <= 6
    ensures done == 0 ==> p == 0
    ensures done == 6 ==> p == 100
  {
    (100 * done + 3) / 6
  }

  /** Raising the count never lowers the percentage. */
  lemma ProgressMonotone(a: nat, b: nat)
    requires a <= b
    ensures ProgressPercent(a) <= ProgressPercent(b)
  {
  }

  /** `handleLevelSelect`'s test: level 0 is always open, level i once the tutorial
      before it is completed (an index past the table finds no tutorial there). */
  predicate Unlocked(completed: seq<int>, levelIndex: int)
    ensures Unlocked(completed, levelIndex) ==> 0 <= levelIndex <= |Catalog|
    ensures 1 <= levelIndex <= |Catalog| ==> (Unlocked(completed, levelIndex) <==> levelIndex in completed)
  {
    CatalogWellFormed();
    levelIndex == 0 || (1 <= levelIndex <= |Catalog| && Catalog[levelIndex - 1].id in completed)
  }

  /** The sidebar's "locked" style: never on the first level, and on level i exactly
      while id i, that of the level before it, is not recorded. */
  predicate Locked(completed: seq<int>, index: int)
    ensures index <= 0 ==> !Locked(completed, index)
    ensures 1 <= index <= |Catalog| ==> (Locked(completed, index) <==> index !in completed)
  {
    CatalogWellFormed();
    index > 0 && !(1 <= index <= |Catalog| && Catalog[index - 1].id in completed)
  }

  /** A level is drawn locked exactly when selecting it is refused. */
  lemma LockedIffNotSelectable(completed: seq<int>, index: int)
    requires index >= 0
    ensures Locked(completed, index) <==> !Unlocked(completed, index)
  {
  }

  predicate NoDuplicates(s: seq<int>)
  {
    forall j, k :: 0 <= j < k < |s| ==> s[j] != s[k]
  }

  /** A list without repeats, drawn from a set, is no longer than the set. */
  lemma {:induction false} DistinctWithin(s: seq<int>, ids: set<int>)
    requires NoDuplicates(s)
    requires forall k :: 0 <= k < |s| ==> s[k] in ids
    ensures |s| <= |ids|
  {
    if s != [] {
      var last := s[|s| - 1];
      var rest := s[..|s| - 1];
      forall k | 0 <= k < |rest|
        ensures rest[k] in ids - {last}
      {
        assert rest[k] == s[k];
      }
      DistinctWithin(rest, ids - {last});
    }
  }

  /** The ids of the table. */
  function CatalogIds(): (ids: set<int>)
    ensures ids == {1, 2, 3, 4, 5, 6}
  {
    CatalogWellFormed();
    var ids := set k | 0 <= k < |Catalog| :: Catalog[k].id;
    assert Catalog[0].id in ids && Catalog[1].id in ids && Catalog[2].id in ids;
    assert Catalog[3].id in ids && Catalog[4].id in ids && Catalog[5].id in ids;
    ids
  }

  /** Progress stays within 100% as long as no level id is recorded twice. A level
      completed again is appended again, which this lemma's premise rules out. */
  lemma ProgressBounded(completed: seq<int>)
    requires NoDuplicates(completed)
    requires forall k :: 0 <= k < |completed| ==> completed[k] in CatalogIds()
    ensures ProgressPercent(|completed|) <= 100
  {
    DistinctWithin(completed, CatalogIds());
  }

  /** What `saveProgress` writes under the `tutorialProgress` key. A field missing from
      a stored entry is `None`. */
  datatype StoredProgress = StoredProgress(
    completedLevels: Option<seq<int>>,
    userProgress: Option<int>,
    lastUpdated: string)

  /** The entry written holds every field, so nothing restored from it falls back to a
      default. */
  function SaveRecord(completed: seq<int>, progress: int, now: string): (r: StoredProgress)
    ensures r.completedLevels.Some? && r.userProgress.Some?
    ensures r.lastUpdated == now
  {
    StoredProgress(Some(completed), Some(progress), now)
  }

  /** The levels and the percentage the mount effect restores, with `[]` and `0` for
      missing fields. */
  function Restore(stored: StoredProgress): (r: (seq<int>, int))
    ensures stored.completedLevels.None? ==> r.0 == []
    ensures stored.userProgress.None? ==> r.1 == 0
  {
    (stored.completedLevels.GetOr([]), stored.userProgress.GetOr(0))
  }

  /** Restoring what was saved gives back the levels and the percentage. */
  lemma SaveThenRestore(completed: seq<int>, progress: int, now: string)
    ensures Restore(SaveRecord(completed, progress, now)) == (completed, progress)
  {
  }

  class TutorialProgress {
    var currentLevel: int
    var completedLevels: seq<int>
    var showQuiz: bool
    var quizCompleted: bool
    var userProgress: int
    var showAchievement: bool
    /** Index of the level whose badge the achievement popup shows. */
    var currentAchievement: Option<int>
    /** Levels captured by the achievement timers not yet fired, oldest first: each
        timer advances from the level that was current when it was set. */
    var pendingDismissals: seq<int>
    /** The `tutorialProgress` entry of browser storage. */
    var storage: Option<StoredProgress>

    ghost predicate Valid()
      reads this
    {
      && 0 <= currentLevel < |Catalog|
      && (forall k :: 0 <= k < |pendingDismissals| ==> 0 <= pendingDismissals[k] < |Catalog|)
      && (showAchievement <==> currentAchievement.Some?)
      && (currentAchievement.Some? ==> 0 <= currentAchievement.value < |Catalog|)
    }

    /** The first render: level 0, nothing completed, video view; storage as found. */
    constructor (saved: Option<StoredProgress>)
      ensures Valid()
      ensures currentLevel == 0 && completedLevels == [] && userProgress == 0
      ensures !showQuiz && !quizCompleted && !showAchievement && pendingDismissals == []
      ensures storage == saved
    {
      currentLevel := 0;
      completedLevels := [];
      showQuiz := false;
      quizCompleted := false;
      userProgress := 0;
      showAchievement := false;
      currentAchievement := None;
      pendingDismissals := [];
      storage := saved;
    }

    /** The mount effect: a stored entry, if any, replaces the levels and the percentage. */
    method RestoreProgress()
      requires Valid()
      modifies this
      ensures Valid()
      ensures storage.Some? ==> (completedLevels, userProgress) == Restore(storage.value)
      ensures storage.None? ==> completedLevels == old(completedLevels) && userProgress == old(userProgress)
      ensures currentLevel == old(currentLevel) && showQuiz == old(showQuiz)
      ensures quizCompleted == old(quizCompleted) && storage == old(storage)
      ensures showAchievement == old(showAchievement) && currentAchievement == old(currentAchievement)
      ensures pendingDismissals == old(pendingDismissals)
    {
      if storage.Some? {
        var restored := Restore(storage.value);
        completedLevels := restored.0;
        userProgress := restored.1;
      }
    }

    /** "I have watched the video": the quiz is shown. */
    method HandleVideoComplete()
      requires Valid()
      modifies this`showQuiz
      ensures Valid() && showQuiz
    {
      showQuiz := true;
    }

    /** `handleQuizComplete`: a right answer records the level, recomputes and saves the
        progress, shows the badge and starts the timer that will move on; a wrong one
        only alerts. The option buttons exist only in the quiz view and are disabled
        once the quiz is answered. */
    method HandleQuizComplete(selectedOption: int, now: string) returns (alert: Option<string>)
      requires Valid() && showQuiz && !quizCompleted
      modifies this
      ensures Valid()
      ensures selectedOption == Catalog[old(currentLevel)].quiz.correct ==>
        && alert == None
        && completedLevels == old(completedLevels) + [Catalog[old(currentLevel)].id]
        && userProgress == ProgressPercent(|completedLevels|)
        && quizCompleted && showAchievement && currentAchievement == Some(old(currentLevel))
        && storage == Some(SaveRecord(completedLevels, userProgress, now))
        && pendingDismissals == old(pendingDismissals) + [old(currentLevel)]
        && currentLevel == old(currentLevel) && showQuiz == old(showQuiz)
      ensures selectedOption != Catalog[old(currentLevel)].quiz.correct ==>
        alert == Some(WrongAnswerAlert) && unchanged(this)
    {
      var current := Catalog[currentLevel];
      if selectedOption == current.quiz.correct {
        var newCompleted := completedLevels + [current.id];
        var newProgress := ProgressPercent(|newCompleted|);
        completedLevels := newCompleted;
        userProgress := newProgress;
        quizCompleted := true;
        currentAchievement := Some(currentLevel);
        showAchievement := true;
        storage := Some(SaveRecord(newCompleted, newProgress, now));
        pendingDismissals := pendingDismissals + [currentLevel];
        alert := None;
      } else {
        alert := Some(WrongAnswerAlert);
      }
    }

    /** The oldest achievement timer fires: the popup and the quiz close, and the level
        after the one captured by the timer becomes current unless that was the last. */
    method DismissAchievement()
      requires Valid() && |pendingDismissals| > 0
      modifies this
      ensures Valid()
      ensures pendingDismissals == old(pendingDismissals[1..])
      ensures !showAchievement && currentAchievement == None && !showQuiz && !quizCompleted
      ensures currentLevel == if old(pendingDismissals[0]) < |Catalog| - 1
                              then old(pendingDismissals[0]) + 1 else old(currentLevel)
      ensures completedLevels == old(completedLevels) && userProgress == old(userProgress)
      ensures storage == old(storage)
    {
      var captured := pendingDismissals[0];
      pendingDismissals := pendingDismissals[1..];
      showAchievement := false;
      currentAchievement := None;
      showQuiz := false;
      quizCompleted := false;
      if captured < |Catalog| - 1 {
        currentLevel := captured + 1;
      }
    }

    /** `handleLevelSelect` from the sidebar, which lists exactly the table's levels:
        an unlocked level becomes current in its video view, a locked one only alerts. */
    method HandleLevelSelect(levelIndex: int) returns (alert: Option<string>)
      requires Valid() && 0 <= levelIndex < |Catalog|
      modifies this
      ensures Valid()
      ensures Unlocked(old(completedLevels), levelIndex) ==>
        && alert == None && currentLevel == levelIndex && !showQuiz && !quizCompleted
        && completedLevels == old(completedLevels) && userProgress == old(userProgress)
        && showAchievement == old(showAchievement) && currentAchievement == old(currentAchievement)
        && pendingDismissals == old(pendingDismissals) && storage == old(storage)
      ensures !Unlocked(old(completedLevels), levelIndex) ==>
        alert == Some(LockedLevelAlert) && unchanged(this)
    {
      if Unlocked(completedLevels, levelIndex) {
        currentLevel := levelIndex;
        showQuiz := false;
        quizCompleted := false;
        alert := None;
      } else {
        alert := Some(LockedLevelAlert);
      }
    }
  }

  /** Completing the last level again after a full run, restored from storage, appends
      its id a second time: seven entries and a progress of 117%. */
  method RepeatCompletionScenario() returns (entries: nat, progress: int)
    ensures entries == 7 && progress == 117
  {
    var t := new TutorialProgress(Some(SaveRecord([1, 2, 3, 4, 5, 6], 100, "earlier")));
    t.RestoreProgress();
    var _ := t.HandleLevelSelect(5);
    t.HandleVideoComplete();
    var _ := t.HandleQuizComplete(1, "later");
    entries := |t.completedLevels|;
    progress := t.userProgress;
  }
}
