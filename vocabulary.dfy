/**
  The two fixed vocabularies of the dialog: the goals and the levels, each
  an internal key with a Russian display label, declared in a fixed order.
 */
module Vocabulary {
  import opened Wrappers
  import opened Labels

  datatype Goal = WeightLoss | MuscleGain | Strength | Endurance {

    function Key(): string {
      match this
      case WeightLoss => "weight_loss"
      case MuscleGain => "muscle_gain"
      case Strength => "strength"
      case Endurance => "endurance"
    }

    function Label(): string {
      match this
      case WeightLoss => "Сжигание жира"
      case MuscleGain => "Набор массы"
      case Strength => "Сила"
      case Endurance => "Выносливость"
    }
  }

  datatype Level = Beginner | Intermediate | Advanced {

    function Key(): string {
      match this
      case Beginner => "beginner"
      case Intermediate => "intermediate"
      case Advanced => "advanced"
    }

    function Label(): string {
      match this
      case Beginner => "Новичок"
      case Intermediate => "Средний"
      case Advanced => "Продвинутый"
    }
  }

  /** The goals in declared order. */
  const AllGoals: seq<Goal> := [WeightLoss, MuscleGain, Strength, Endurance]

  /** The levels in declared order. */
  const AllLevels: seq<Level> := [Beginner, Intermediate, Advanced]

  /** The goal dictionary, key to label, in declared order. */
  const GoalTable: Table := [
    (WeightLoss.Key(), WeightLoss.Label()),
    (MuscleGain.Key(), MuscleGain.Label()),
    (Strength.Key(), Strength.Label()),
    (Endurance.Key(), Endurance.Label())
  ]

  /** The level dictionary, key to label, in declared order. */
  const LevelTable: Table := [
    (Beginner.Key(), Beginner.Label()),
    (Intermediate.Key(), Intermediate.Label()),
    (Advanced.Key(), Advanced.Label())
  ]

  /** Reading a label back by cases on the enumeration: the reference the table scan is checked against. */
  function GoalOfLabel(text: string): (r: Option<Goal>)
    ensures forall g: Goal :: r == Some(g) <==> g.Label() == text
  {
    if text == WeightLoss.Label() then Some(WeightLoss)
    else if text == MuscleGain.Label() then Some(MuscleGain)
    else if text == Strength.Label() then Some(Strength)
    else if text == Endurance.Label() then Some(Endurance)
    else None
  }

  function LevelOfLabel(text: string): (r: Option<Level>)
    ensures forall l: Level :: r == Some(l) <==> l.Label() == text
  {
    if text == Beginner.Label() then Some(Beginner)
    else if text == Intermediate.Label() then Some(Intermediate)
    else if text == Advanced.Label() then Some(Advanced)
    else None
  }

  /** Every goal occurs in the table, keys are non-empty and keys and labels are pairwise distinct. */
  lemma GoalTableWellFormed()
    ensures |GoalTable| == |AllGoals|
    ensures forall i :: 0 <= i < |AllGoals| ==> GoalTable[i] == (AllGoals[i].Key(), AllGoals[i].Label())
    ensures DistinctLabels(GoalTable)
    ensures forall g: Goal :: (g.Key(), g.Label()) in GoalTable
    ensures forall i :: 0 <= i < |GoalTable| ==> GoalTable[i].0 != ""
    ensures forall g: Goal :: g.Key() != ""
    ensures forall g: Goal, h: Goal :: g.Key() == h.Key() ==> g == h
  {
  }

  lemma LevelTableWellFormed()
    ensures |LevelTable| == |AllLevels|
    ensures forall i :: 0 <= i < |AllLevels| ==> LevelTable[i] == (AllLevels[i].Key(), AllLevels[i].Label())
    ensures DistinctLabels(LevelTable)
    ensures forall l: Level :: (l.Key(), l.Label()) in LevelTable
    ensures forall i :: 0 <= i < |LevelTable| ==> LevelTable[i].0 != ""
    ensures forall l: Level :: l.Key() != ""
    ensures forall l: Level, m: Level :: l.Key() == m.Key() ==> l == m
  {
  }

  /** The key a successful lookup hands on. */
  function GoalKeyOf(g: Option<Goal>): Option<string> {
    if g.Some? then Some(g.value.Key()) else None
  }

  function LevelKeyOf(l: Option<Level>): Option<string> {
    if l.Some? then Some(l.value.Key()) else None
  }

  /** Scanning the goal dictionary finds the key of the goal whose label the text is, and nothing when there is none. */
  lemma GoalLookupAgrees(text: string)
    ensures FirstKey(GoalTable, text) == GoalKeyOf(GoalOfLabel(text))
  {
    GoalTableWellFormed();
    var g := GoalOfLabel(text);
    if g.Some? {
      FirstKeyIsEntry(GoalTable, text, g.value.Key());
    } else {
      forall i | 0 <= i < |GoalTable| ensures GoalTable[i].1 != text {
        assert GoalTable[i].1 == AllGoals[i].Label();
      }
    }
  }

  lemma LevelLookupAgrees(text: string)
    ensures FirstKey(LevelTable, text) == LevelKeyOf(LevelOfLabel(text))
  {
    LevelTableWellFormed();
    var l := LevelOfLabel(text);
    if l.Some? {
      FirstKeyIsEntry(LevelTable, text, l.value.Key());
    } else {
      forall i | 0 <= i < |LevelTable| ensures LevelTable[i].1 != text {
        assert LevelTable[i].1 == AllLevels[i].Label();
      }
    }
  }

  /**
    No goal or level label starts or ends with a space, so text with a space
    at either end is rejected by both lookups: the match does not trim.
   */
  lemma SpaceEdgedTextRejected(text: string)
    requires |text| > 0 && (text[0] == ' ' || text[|text| - 1] == ' ')
    ensures GoalOfLabel(text) == None
    ensures LevelOfLabel(text) == None
  {
    forall g: Goal ensures g.Label() != text {
      assert g.Label()[0] != ' ' && g.Label()[|g.Label()| - 1] != ' ';
    }
    forall l: Level ensures l.Label() != text {
      assert l.Label()[0] != ' ' && l.Label()[|l.Label()| - 1] != ' ';
    }
  }

  /** A label with a space added before or after it is rejected, for every goal and every level. */
  lemma PaddedLabelsRejected(g: Goal, l: Level)
    ensures GoalOfLabel(" " + g.Label()) == None && GoalOfLabel(g.Label() + " ") == None
    ensures LevelOfLabel(" " + l.Label()) == None && LevelOfLabel(l.Label() + " ") == None
  {
    SpaceEdgedTextRejected(" " + g.Label());
    SpaceEdgedTextRejected(g.Label() + " ");
    SpaceEdgedTextRejected(" " + l.Label());
    SpaceEdgedTextRejected(l.Label() + " ");
  }
}
