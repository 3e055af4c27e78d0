/**
  The two-step conversation that picks a workout program: ask for a goal,
  then for a level, then deliver the catalog's program for that pair. The
  per-user scratch storage (`user_data`) and the conversation state are the
  fields of a Session; each handler updates them in place and returns the
  replies it sends.
 */
module Conversation {
  import opened Wrappers
  import opened Labels
  import opened Vocabulary
  import opened Formatter

  /** The conversation states; End also stands for "no conversation in progress". */
  datatype State = AskGoal | AskLevel | End

  /** The reply keyboard sent along with a message. */
  datatype Keyboard =
    | Keep                               // no keyboard change
    | Options(rows: seq<seq<string>>)    // a one-time keyboard, one button label per row
    | Remove                             // take the keyboard away

  datatype Reply = Reply(text: string, keyboard: Keyboard)

  /** The program catalog, keyed by goal key and level key. */
  type Catalog = (string, string) -> ProgramRecord

  /** The `user_data` entry that carries the chosen goal between the two steps. */
  const GoalSlot: string := "goal"

  const GoalQuestion: string := "🎯 Выбери свою основную цель:"
  const LevelQuestion: string := "📊 Твой уровень подготовки:"
  const GoalNotice: string := "Пожалуйста, выбери цель из списка"
  const LevelNotice: string := "Пожалуйста, выбери уровень из списка"
  const Farewell: string := "Удачных тренировок! 💪"

  /** The goal question, offering every goal label in declared order, one per row. */
  function GoalPrompt(): (r: Reply)
    ensures r.text == GoalQuestion && r.keyboard.Options?
    ensures |r.keyboard.rows| == |AllGoals|
    ensures forall i :: 0 <= i < |AllGoals| ==> r.keyboard.rows[i] == [AllGoals[i].Label()]
  {
    Reply(GoalQuestion, Options(KeyboardRows(GoalTable)))
  }

  /** The level question, offering every level label in declared order, one per row. */
  function LevelPrompt(): (r: Reply)
    ensures r.text == LevelQuestion && r.keyboard.Options?
    ensures |r.keyboard.rows| == |AllLevels|
    ensures forall i :: 0 <= i < |AllLevels| ==> r.keyboard.rows[i] == [AllLevels[i].Label()]
  {
    Reply(LevelQuestion, Options(KeyboardRows(LevelTable)))
  }

  /** Python truthiness of the looked-up key: found, and not the empty string. */
  predicate Truthy(key: Option<string>) {
    key.Some? && key.value != ""
  }

  class Session {
    var state: State
    var userData: map<string, string>

    /** While waiting for the level, the chosen goal is in the scratch storage. */
    ghost predicate Valid()
      reads this
    {
      state == AskLevel ==> GoalSlot in userData
    }

    /** A user with no conversation and empty scratch storage. */
    constructor ()
      ensures Valid()
      ensures state == End && userData == map[]
    {
      state := End;
      userData := map[];
    }

    /** /create: ask for the goal, from whatever state and history. */
    method CreateProgram() returns (replies: seq<Reply>)
      modifies this
      ensures Valid()
      ensures state == AskGoal && userData == old(userData)
      ensures replies == [GoalPrompt()]
    {
      replies := [GoalPrompt()];
      state := AskGoal;
    }

    /**
      The answer to the goal question. An exact goal label stores that goal's
      key and asks for the level; anything else re-asks and changes nothing.
     */
    method HandleGoal(text: string) returns (replies: seq<Reply>)
      modifies this
      ensures Valid()
      ensures GoalOfLabel(text).Some? ==>
                && state == AskLevel
                && userData == old(userData)[GoalSlot := GoalOfLabel(text).value.Key()]
                && replies == [LevelPrompt()]
      ensures GoalOfLabel(text).None? ==>
                && state == AskGoal
                && userData == old(userData)
                && replies == [Reply(GoalNotice, Keep)]
    {
      var key := FindKey(GoalTable, text);
      GoalLookupAgrees(text);
      GoalTableWellFormed();
      if Truthy(key) {
        userData := userData[GoalSlot := key.value];
        replies := [LevelPrompt()];
        state := AskLevel;
      } else {
        replies := [Reply(GoalNotice, Keep)];
        state := AskGoal;
      }
    }

    /**
      The answer to the level question. An exact level label fetches the
      catalog's program for the stored goal and that level, sends it with a
      farewell that removes the keyboard, clears the scratch storage and ends
      the conversation; anything else re-asks and changes nothing.
     */
    method HandleLevel(text: string, catalog: Catalog) returns (replies: seq<Reply>)
      requires Valid() && state == AskLevel
      modifies this
      ensures Valid()
      ensures LevelOfLabel(text).Some? ==>
                && state == End
                && userData == map[]
                && replies == [Reply(ProgramText(catalog(old(userData)[GoalSlot], LevelOfLabel(text).value.Key())), Keep),
                               Reply(Farewell, Remove)]
      ensures LevelOfLabel(text).None? ==>
                && state == AskLevel
                && userData == old(userData)
                && replies == [Reply(LevelNotice, Keep)]
    {
      var key := FindKey(LevelTable, text);
      LevelLookupAgrees(text);
      LevelTableWellFormed();
      if Truthy(key) {
        var goal := userData[GoalSlot];
        var program := catalog(goal, key.value);
        var programText := BuildProgramText(program);
        replies := [Reply(programText, Keep), Reply(Farewell, Remove)];
        userData := map[];
        state := End;
      } else {
        replies := [Reply(LevelNotice, Keep)];
        state := AskLevel;
      }
    }
  }

  /**
    A whole conversation: /create, then the label of `g`, then the label of
    `l`. The catalog is asked for exactly (key of g, key of l), and the
    session ends with empty scratch storage, whatever it held before.
   */
  method CompleteDialog(s: Session, g: Goal, l: Level, catalog: Catalog) returns (replies: seq<Reply>)
    modifies s
    ensures s.Valid()
    ensures s.state == End && s.userData == map[]
    ensures replies == [GoalPrompt(), LevelPrompt(), Reply(ProgramText(catalog(g.Key(), l.Key())), Keep), Reply(Farewell, Remove)]
  {
    var asked := s.CreateProgram();
    var chosen := s.HandleGoal(g.Label());
    var delivered := s.HandleLevel(l.Label(), catalog);
    replies := asked + chosen + delivered;
  }

  /**
    A goal answer that is not a label is rejected and the conversation can
    go on: the user retries with a label and then completes the level step.
   */
  method RetryAfterRejectedGoal(s: Session, wrong: string, g: Goal, l: Level, catalog: Catalog) returns (replies: seq<Reply>)
    requires GoalOfLabel(wrong).None?
    modifies s
    ensures s.Valid()
    ensures s.state == End && s.userData == map[]
    ensures replies == [Reply(GoalNotice, Keep), LevelPrompt(), Reply(ProgramText(catalog(g.Key(), l.Key())), Keep), Reply(Farewell, Remove)]
  {
    var rejected := s.HandleGoal(wrong);
    var chosen := s.HandleGoal(g.Label());
    var delivered := s.HandleLevel(l.Label(), catalog);
    replies := rejected + chosen + delivered;
  }
}
