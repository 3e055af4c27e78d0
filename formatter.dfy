/**
  The program record supplied by the catalog and the message text built from
  it. The text is a concatenation of sections in a fixed order: banner,
  title, description, features, weekly schedule, nutrition, water, tip.
 */
module Formatter {
  import opened Wrappers

  /**
    One catalog entry. `schedule` is the weekly-schedule dictionary in
    insertion order (day, workout); `tips` is None when the entry has no
    "tips" key.
   */
  datatype ProgramRecord = ProgramRecord(
    title: string,
    description: string,
    features: seq<string>,
    schedule: seq<(string, string)>,
    nutrition: string,
    water: string,
    tips: Option<string>)

  const DefaultTip: string := "Слушай свой организм и отдыхай!"

  const Banner: string := "\n🎉 ТВОЯ ПРОГРАММА ГОТОВА!\n\n📋 "
  const FeaturesHeading: string := "\n\n✨ ОСОБЕННОСТИ:\n"
  const ScheduleHeading: string := "\n📅 **РАСПИСАНИЕ НА НЕДЕЛЮ:**\n"
  const NutritionHeading: string := "\n🥗 ПИТАНИЕ:\n"
  const WaterHeading: string := "\n\n💧 ВОДНЫЙ РЕЖИМ:\n"
  const TipHeading: string := "\n\n💡 СОВЕТ:\n"
  const Trailer: string := "\n\nЧтобы создать новую программу, нажми /create\n"

  /** The tip shown: the record's own when it has one (even an empty one), the default only when it has none. */
  function TipOf(p: ProgramRecord): (t: string)
    ensures p.tips.Some? ==> t == p.tips.value
    ensures p.tips.None? ==> t == DefaultTip
  {
    match p.tips
    case Some(tip) => tip
    case None => DefaultTip
  }

  function FeatureLine(feature: string): string {
    "• " + feature + "\n"
  }

  function DayLine(entry: (string, string)): string {
    "• " + entry.0 + ": " + entry.1 + "\n"
  }

  /** Concatenation from the left, the way `+=` grows the text. */
  function Concat(parts: seq<string>): string {
    if parts == [] then "" else Concat(parts[..|parts| - 1]) + parts[|parts| - 1]
  }

  /** The opening template: banner, title, description and the features heading. */
  function HeaderParts(p: ProgramRecord): seq<string> {
    [Banner, p.title, "\n", p.description, FeaturesHeading]
  }

  function FeatureLines(p: ProgramRecord): seq<string> {
    seq(|p.features|, i requires 0 <= i < |p.features| => FeatureLine(p.features[i]))
  }

  function DayLines(p: ProgramRecord): seq<string> {
    seq(|p.schedule|, j requires 0 <= j < |p.schedule| => DayLine(p.schedule[j]))
  }

  /** The closing template: nutrition, water, tip and the trailer. */
  function FooterParts(p: ProgramRecord): seq<string> {
    [NutritionHeading, p.nutrition, WaterHeading, p.water, TipHeading, TipOf(p), Trailer]
  }

  /** The pieces of the message, in display order. */
  function Sections(p: ProgramRecord): seq<string> {
    HeaderParts(p) + FeatureLines(p) + [ScheduleHeading] + DayLines(p) + FooterParts(p)
  }

  function ProgramText(p: ProgramRecord): string {
    Concat(Sections(p))
  }

  // Positions of the sections in Sections(p).
  const TitleIndex: nat := 1
  const DescriptionIndex: nat := 3

  function FeatureIndex(i: nat): nat {
    5 + i
  }

  function DayIndex(p: ProgramRecord, j: nat): nat {
    6 + |p.features| + j
  }

  /** Where the closing template starts. */
  function FooterIndex(p: ProgramRecord): nat {
    6 + |p.features| + |p.schedule|
  }

  function NutritionIndex(p: ProgramRecord): nat {
    FooterIndex(p) + 1
  }

  function WaterIndex(p: ProgramRecord): nat {
    NutritionIndex(p) + 2
  }

  function TipIndex(p: ProgramRecord): nat {
    NutritionIndex(p) + 4
  }

  /** Where section `k` starts in the text. */
  function Start(p: ProgramRecord, k: nat): nat
    requires k <= |Sections(p)|
  {
    |Concat(Sections(p)[..k])|
  }

  /** `t` occurs in `s` at position `at`. */
  predicate OccursAt(s: string, t: string, at: nat) {
    at + |t| <= |s| && s[at..at + |t|] == t
  }

  lemma {:induction false} ConcatAppend(a: seq<string>, b: seq<string>)
    ensures Concat(a + b) == Concat(a) + Concat(b)
    decreases |b|
  {
    if b == [] {
      assert a + b == a;
    } else {
      var n := |b| - 1;
      assert (a + b)[..|a + b| - 1] == a + b[..n];
      ConcatAppend(a, b[..n]);
    }
  }

  /** Part `k` of a concatenation sits right after the parts before it. */
  lemma ConcatPartAt(parts: seq<string>, k: nat)
    requires k < |parts|
    ensures OccursAt(Concat(parts), parts[k], |Concat(parts[..k])|)
  {
    assert parts == parts[..k] + [parts[k]] + parts[k + 1..];
    ConcatAppend(parts[..k] + [parts[k]], parts[k + 1..]);
    ConcatAppend(parts[..k], [parts[k]]);
    assert Concat([parts[k]]) == parts[k] by {
      assert [parts[k]][..0] == [];
    }
  }

  /** A later part starts no earlier than an earlier part ends. */
  lemma ConcatPartsInOrder(parts: seq<string>, j: nat, k: nat)
    requires j < k <= |parts|
    ensures |Concat(parts[..j])| + |parts[j]| <= |Concat(parts[..k])|
  {
    assert parts[..k] == parts[..j] + [parts[j]] + parts[j + 1..k];
    ConcatAppend(parts[..j] + [parts[j]], parts[j + 1..k]);
    ConcatAppend(parts[..j], [parts[j]]);
    assert Concat([parts[j]]) == parts[j] by {
      assert [parts[j]][..0] == [];
    }
  }

  /** What each section of the text holds. */
  lemma SectionContents(p: ProgramRecord)
    ensures Sections(p)[TitleIndex] == p.title
    ensures Sections(p)[DescriptionIndex] == p.description
    ensures forall i :: 0 <= i < |p.features| ==> Sections(p)[FeatureIndex(i)] == FeatureLine(p.features[i])
    ensures forall j :: 0 <= j < |p.schedule| ==> Sections(p)[DayIndex(p, j)] == DayLine(p.schedule[j])
    ensures Sections(p)[NutritionIndex(p)] == p.nutrition
    ensures Sections(p)[WaterIndex(p)] == p.water
    ensures Sections(p)[TipIndex(p)] == TipOf(p)
    ensures |Sections(p)| == TipIndex(p) + 2
  {
  }

  /** Every section of the message occurs in the text at its start position. */
  lemma SectionPlaced(p: ProgramRecord, k: nat)
    requires k < |Sections(p)|
    ensures OccursAt(ProgramText(p), Sections(p)[k], Start(p, k))
  {
    ConcatPartAt(Sections(p), k);
  }

  /** Sections follow each other in index order and do not overlap. */
  lemma SectionsInOrder(p: ProgramRecord, j: nat, k: nat)
    requires j < k <= |Sections(p)|
    ensures Start(p, j) + |Sections(p)[j]| <= Start(p, k)
  {
    ConcatPartsInOrder(Sections(p), j, k);
  }

  /**
    The message holds the title, the description, each feature line in record
    order, each schedule line in insertion order, the nutrition, the water
    guidance and the tip, each at the position its section index gives.
   */
  lemma ProgramTextLayout(p: ProgramRecord)
    ensures OccursAt(ProgramText(p), p.title, Start(p, TitleIndex))
    ensures OccursAt(ProgramText(p), p.description, Start(p, DescriptionIndex))
    ensures forall i :: 0 <= i < |p.features| ==>
              OccursAt(ProgramText(p), FeatureLine(p.features[i]), Start(p, FeatureIndex(i)))
    ensures forall j :: 0 <= j < |p.schedule| ==>
              OccursAt(ProgramText(p), DayLine(p.schedule[j]), Start(p, DayIndex(p, j)))
    ensures OccursAt(ProgramText(p), p.nutrition, Start(p, NutritionIndex(p)))
    ensures OccursAt(ProgramText(p), p.water, Start(p, WaterIndex(p)))
    ensures OccursAt(ProgramText(p), TipOf(p), Start(p, TipIndex(p)))
  {
    SectionContents(p);
    SectionPlaced(p, TitleIndex);
    SectionPlaced(p, DescriptionIndex);
    forall i | 0 <= i < |p.features|
      ensures OccursAt(ProgramText(p), FeatureLine(p.features[i]), Start(p, FeatureIndex(i)))
    {
      SectionPlaced(p, FeatureIndex(i));
    }
    forall j | 0 <= j < |p.schedule|
      ensures OccursAt(ProgramText(p), DayLine(p.schedule[j]), Start(p, DayIndex(p, j)))
    {
      SectionPlaced(p, DayIndex(p, j));
    }
    SectionPlaced(p, NutritionIndex(p));
    SectionPlaced(p, WaterIndex(p));
    SectionPlaced(p, TipIndex(p));
  }

  /** Appending one more part to a prefix of parts. */
  lemma ConcatSnoc(parts: seq<string>, n: nat)
    requires n < |parts|
    ensures Concat(parts[..n + 1]) == Concat(parts[..n]) + parts[n]
  {
    assert parts[..n + 1][..n] == parts[..n];
  }

  /** The first five sections are what the opening template renders. */
  lemma HeaderText(p: ProgramRecord)
    ensures Sections(p)[..5] == HeaderParts(p)
    ensures Concat(HeaderParts(p)) == Banner + p.title + "\n" + p.description + FeaturesHeading
  {
    var parts := HeaderParts(p);
    assert Sections(p)[..5] == parts;
    assert parts[..1][..0] == [];
    ConcatSnoc(parts, 1);
    ConcatSnoc(parts, 2);
    ConcatSnoc(parts, 3);
    ConcatSnoc(parts, 4);
    assert parts[..5] == parts;
  }

  /** The last seven sections are what the closing template renders. */
  lemma FooterText(p: ProgramRecord)
    ensures ProgramText(p) == Concat(Sections(p)[..FooterIndex(p)]) + Concat(FooterParts(p))
    ensures Concat(FooterParts(p))
              == NutritionHeading + p.nutrition + WaterHeading + p.water + TipHeading + TipOf(p) + Trailer
  {
    var parts := Sections(p);
    var footer := FooterParts(p);
    assert parts == parts[..FooterIndex(p)] + footer;
    ConcatAppend(parts[..FooterIndex(p)], footer);
    assert footer[..1][..0] == [];
    ConcatSnoc(footer, 1);
    ConcatSnoc(footer, 2);
    ConcatSnoc(footer, 3);
    ConcatSnoc(footer, 4);
    ConcatSnoc(footer, 5);
    ConcatSnoc(footer, 6);
    assert footer[..7] == footer;
  }

  /** One feature line more. */
  lemma FeatureStep(p: ProgramRecord, i: nat)
    requires i < |p.features|
    ensures Concat(Sections(p)[..FeatureIndex(i) + 1]) == Concat(Sections(p)[..FeatureIndex(i)]) + FeatureLine(p.features[i])
  {
    SectionContents(p);
    ConcatSnoc(Sections(p), FeatureIndex(i));
  }

  /** The schedule heading after the last feature line. */
  lemma ScheduleHeadingStep(p: ProgramRecord)
    ensures Concat(Sections(p)[..DayIndex(p, 0)]) == Concat(Sections(p)[..FeatureIndex(|p.features|)]) + ScheduleHeading
  {
    ConcatSnoc(Sections(p), FeatureIndex(|p.features|));
  }

  /** One schedule line more. */
  lemma DayStep(p: ProgramRecord, j: nat)
    requires j < |p.schedule|
    ensures Concat(Sections(p)[..DayIndex(p, j) + 1]) == Concat(Sections(p)[..DayIndex(p, j)]) + DayLine(p.schedule[j])
  {
    SectionContents(p);
    ConcatSnoc(Sections(p), DayIndex(p, j));
  }

  /** Builds the message the way the handler does: a header, then one `+=` per feature, per day and for the footer. */
  method BuildProgramText(p: ProgramRecord) returns (text: string)
    ensures text == ProgramText(p)
  {
    HeaderText(p);
    text := Banner + p.title + "\n" + p.description + FeaturesHeading;
    for i := 0 to |p.features|
      invariant text == Concat(Sections(p)[..FeatureIndex(i)])
    {
      FeatureStep(p, i);
      text := text + FeatureLine(p.features[i]);
    }
    ScheduleHeadingStep(p);
    text := text + ScheduleHeading;
    for j := 0 to |p.schedule|
      invariant text == Concat(Sections(p)[..DayIndex(p, j)])
    {
      DayStep(p, j);
      text := text + DayLine(p.schedule[j]);
    }
    FooterText(p);
    text := text + (NutritionHeading + p.nutrition + WaterHeading + p.water + TipHeading + TipOf(p) + Trailer);
  }
}
