/** Pet matching and ranking (backend/src/algorithms/recommender.py): the
    adopter match score with its reasons and warnings, the urgency reasons, the
    pairwise similarity and the greedy diversifying ranking, and the clamp on
    the routes' `limit` argument.

    A pet document and the adopter's query are records of optional fields;
    `None` is a missing key or a stored `None`, so `_get(d, key, default)` is
    `GetOr(default)` on the field. */
module Recommender {
  import opened Wrappers
  import opened Strings

  /** A pet document, with the fields the algorithms read. */
  datatype Pet = Pet(
    id: string,
    species: Option<string>,
    breed: Option<string>,
    size: Option<string>,
    energy: Option<int>,
    medicalNeeds: Option<bool>,
    views7d: Option<real>)

  /** The adopter's answers as the match route passes them. */
  datatype Adopter = Adopter(
    hasYard: Option<string>,
    hoursPerWeek: Option<real>,
    experienceLevel: Option<int>,
    prefersSize: Option<string>)

  datatype Match = Match(score: int, reasons: seq<string>, warnings: seq<string>)

  // ---------------------------------------------------------------------
  // compute_match: the rules as data
  // ---------------------------------------------------------------------

  /** The message of a rule of `compute_match`. */
  datatype Note =
    | HoursLow | HoursFit | HoursCalm
    | YardYes | YardNo
    | MedicalCare | MedicalExperience | MedicalNone
    | SizeMatch(size: string) | SizeMismatch(prefersSize: string)
  {
    /** The message as the source words it. */
    function Text(): string {
      match this
      case HoursLow => "High-energy pet but your available hours/week is low."
      case HoursFit => "Your schedule fits a high-energy pet."
      case HoursCalm => "You have plenty of time for a calmer pet too."
      case YardYes => "A yard helps with high-energy pets."
      case YardNo => "No yard—high-energy pets may need more walks/training time."
      case MedicalCare => "Pet may need medical care; consider more experience or support."
      case MedicalExperience => "Your experience level helps with medical needs."
      case MedicalNone => "No special medical needs reported."
      case SizeMatch(size) => "Matches your preferred size (" + size + ")."
      case SizeMismatch(prefersSize) => "Doesn't match your preferred size (" + prefersSize + ")."
    }

    /** One of the three messages of the `if`/`elif` chain on energy and hours. */
    predicate IsEnergyNote() {
      HoursLow? || HoursFit? || HoursCalm?
    }
  }

  /** One rule that fired: its score change and its message, which goes to the
      reasons (`isReason`) or to the warnings. */
  datatype Effect = Effect(delta: int, isReason: bool, note: Note)

  /** The values `compute_match` reads, after `_get` and the lower-casing. */
  datatype MatchInputs = MatchInputs(
    energy: int, medical: bool, size: string,
    hasYard: string, hours: real, exp: int, prefersSize: string)

  function Inputs(pet: Pet, user: Adopter): MatchInputs {
    MatchInputs(
      pet.energy.GetOr(3), pet.medicalNeeds.GetOr(false), pet.size.GetOr("medium"),
      ToLower(user.hasYard.GetOr("unknown")), user.hoursPerWeek.GetOr(5.0),
      user.experienceLevel.GetOr(1), ToLower(user.prefersSize.GetOr("any")))
  }

  function EnergyRule(x: MatchInputs): seq<Effect> {
    if x.energy >= 4 && x.hours < 6.0 then [Effect(-18, false, HoursLow)]
    else if x.energy >= 4 && x.hours >= 10.0 then [Effect(10, true, HoursFit)]
    else if x.energy <= 2 && x.hours >= 10.0 then [Effect(4, true, HoursCalm)]
    else []
  }

  function YardYesRule(x: MatchInputs): seq<Effect> {
    if x.energy >= 4 && x.hasYard == "yes" then [Effect(6, true, YardYes)] else []
  }

  function YardNoRule(x: MatchInputs): seq<Effect> {
    if x.energy >= 4 && x.hasYard == "no" then [Effect(-6, false, YardNo)] else []
  }

  function MedicalCareRule(x: MatchInputs): seq<Effect> {
    if x.medical && x.exp <= 1 then [Effect(-14, false, MedicalCare)] else []
  }

  function MedicalExperienceRule(x: MatchInputs): seq<Effect> {
    if x.medical && x.exp >= 2 then [Effect(6, true, MedicalExperience)] else []
  }

  function MedicalNoneRule(x: MatchInputs): seq<Effect> {
    if !x.medical then [Effect(2, true, MedicalNone)] else []
  }

  /** `if prefers_size and prefers_size != "any"`. */
  predicate SizeRuleApplies(x: MatchInputs) {
    x.prefersSize != "" && x.prefersSize != "any"
  }

  function SizeRule(x: MatchInputs): seq<Effect> {
    if !SizeRuleApplies(x) then []
    else if x.prefersSize == ToLower(x.size) then [Effect(8, true, SizeMatch(x.size))]
    else [Effect(-4, false, SizeMismatch(x.prefersSize))]
  }

  function YardEffects(x: MatchInputs): seq<Effect> {
    YardYesRule(x) + YardNoRule(x)
  }

  function MedicalEffects(x: MatchInputs): seq<Effect> {
    MedicalCareRule(x) + MedicalExperienceRule(x) + MedicalNoneRule(x)
  }

  /** The rules that fire before the size rule, in the order the source tests them. */
  function EffectsBeforeSize(x: MatchInputs): seq<Effect> {
    EnergyRule(x) + YardEffects(x) + MedicalEffects(x)
  }

  /** Every rule that fires, in order. */
  function Effects(x: MatchInputs): seq<Effect> {
    EffectsBeforeSize(x) + SizeRule(x)
  }

  function Total(e: seq<Effect>): int {
    if e == [] then 0 else e[0].delta + Total(e[1..])
  }

  /** The messages of the effects that go to one list, in order. */
  function Texts(e: seq<Effect>, reasons: bool): seq<string> {
    if e == [] then []
    else (if e[0].isReason == reasons then [e[0].note.Text()] else []) + Texts(e[1..], reasons)
  }

  /** `int(max(lo, min(hi, n)))`. */
  function Clamp(n: int, lo: int, hi: int): (r: int)
    requires lo <= hi
    ensures lo <= r <= hi
    ensures lo <= n <= hi ==> r == n
  {
    if n < lo then lo else if n > hi then hi else n
  }

  /** What `compute_match` returns, stated over the fired rules. */
  function MatchOf(pet: Pet, user: Adopter): Match {
    var e := Effects(Inputs(pet, user));
    Match(Clamp(50 + Total(e), 0, 100), Take(Texts(e, true), 3), Take(Texts(e, false), 3))
  }

  lemma {:induction false} TotalConcat(a: seq<Effect>, b: seq<Effect>)
    ensures Total(a + b) == Total(a) + Total(b)
  {
    if a == [] {
      assert a + b == b;
    } else {
      assert (a + b)[1..] == a[1..] + b;
      TotalConcat(a[1..], b);
    }
  }

  lemma {:induction false} TextsConcat(a: seq<Effect>, b: seq<Effect>, reasons: bool)
    ensures Texts(a + b, reasons) == Texts(a, reasons) + Texts(b, reasons)
  {
    if a == [] {
      assert a + b == b;
    } else {
      assert (a + b)[1..] == a[1..] + b;
      TextsConcat(a[1..], b, reasons);
    }
  }

  /** Appending fired rules adds their score changes and their messages. */
  lemma Extend(e: seq<Effect>, more: seq<Effect>)
    ensures Total(e + more) == Total(e) + Total(more)
    ensures Texts(e + more, true) == Texts(e, true) + Texts(more, true)
    ensures Texts(e + more, false) == Texts(e, false) + Texts(more, false)
  {
    TotalConcat(e, more);
    TextsConcat(e, more, true);
    TextsConcat(e, more, false);
  }

  /** `compute_match(pet, user)`: the score starts at 50 and each group of
      rules adjusts it and appends its messages, in turn. */
  method ComputeMatch(pet: Pet, user: Adopter) returns (m: Match)
    ensures m == MatchOf(pet, user)
    ensures 0 <= m.score <= 100 && |m.reasons| <= 3 && |m.warnings| <= 3
  {
    var x := Inputs(pet, user);
    var reasons: seq<string> := [];
    var warnings: seq<string> := [];
    var score := 50;
    score, reasons, warnings := EnergyHoursRules(x, score, reasons, warnings);
    score, reasons, warnings := YardRules(x, score, reasons, warnings);
    score, reasons, warnings := MedicalRules(x, score, reasons, warnings);
    score, reasons, warnings := SizeRules(x, score, reasons, warnings);
    Extend(EnergyRule(x), YardEffects(x));
    Extend(EnergyRule(x) + YardEffects(x), MedicalEffects(x));
    Extend(EffectsBeforeSize(x), SizeRule(x));
    assert [] + Texts(EnergyRule(x), true) == Texts(EnergyRule(x), true);
    assert [] + Texts(EnergyRule(x), false) == Texts(EnergyRule(x), false);
    assert score == 50 + Total(Effects(x));
    assert reasons == Texts(Effects(x), true);
    assert warnings == Texts(Effects(x), false);
    score := Clamp(score, 0, 100);
    m := Match(score, Take(reasons, 3), Take(warnings, 3));
  }

  /** The running score and lists after the rules in `more` fired, starting
      from `score`, `reasons` and `warnings`. */
  predicate Adds(score: int, reasons: seq<string>, warnings: seq<string>, more: seq<Effect>,
                 score': int, reasons': seq<string>, warnings': seq<string>) {
    score' == score + Total(more) && reasons' == reasons + Texts(more, true)
    && warnings' == warnings + Texts(more, false)
  }

  /** The `if`/`elif` chain on energy and hours. */
  method EnergyHoursRules(x: MatchInputs, score: int, reasons: seq<string>, warnings: seq<string>)
    returns (score': int, reasons': seq<string>, warnings': seq<string>)
    ensures Adds(score, reasons, warnings, EnergyRule(x), score', reasons', warnings')
  {
    score', reasons', warnings' := score, reasons, warnings;
    if x.energy >= 4 && x.hours < 6.0 {
      score' := score' - 18;
      warnings' := warnings' + [HoursLow.Text()];
      Single(Effect(-18, false, HoursLow));
    } else if x.energy >= 4 && x.hours >= 10.0 {
      score' := score' + 10;
      reasons' := reasons' + [HoursFit.Text()];
      Single(Effect(10, true, HoursFit));
    } else if x.energy <= 2 && x.hours >= 10.0 {
      score' := score' + 4;
      reasons' := reasons' + [HoursCalm.Text()];
      Single(Effect(4, true, HoursCalm));
    } else {
      assert reasons' == reasons' + [] && warnings' == warnings' + [];
    }
  }

  /** The two yard rules. */
  method YardRules(x: MatchInputs, score: int, reasons: seq<string>, warnings: seq<string>)
    returns (score': int, reasons': seq<string>, warnings': seq<string>)
    ensures Adds(score, reasons, warnings, YardEffects(x), score', reasons', warnings')
  {
    score', reasons', warnings' := score, reasons, warnings;
    if x.energy >= 4 && x.hasYard == "yes" {
      score' := score' + 6;
      reasons' := reasons' + [YardYes.Text()];
      Single(Effect(6, true, YardYes));
    }
    if x.energy >= 4 && x.hasYard == "no" {
      score' := score' - 6;
      warnings' := warnings' + [YardNo.Text()];
      Single(Effect(-6, false, YardNo));
    }
    Extend(YardYesRule(x), YardNoRule(x));
    assert reasons == reasons + [] && warnings == warnings + [];
  }

  /** The three medical rules. */
  method MedicalRules(x: MatchInputs, score: int, reasons: seq<string>, warnings: seq<string>)
    returns (score': int, reasons': seq<string>, warnings': seq<string>)
    ensures Adds(score, reasons, warnings, MedicalEffects(x), score', reasons', warnings')
  {
    score', reasons', warnings' := score, reasons, warnings;
    if x.medical && x.exp <= 1 {
      score' := score' - 14;
      warnings' := warnings' + [MedicalCare.Text()];
      Single(Effect(-14, false, MedicalCare));
    }
    if x.medical && x.exp >= 2 {
      score' := score' + 6;
      reasons' := reasons' + [MedicalExperience.Text()];
      Single(Effect(6, true, MedicalExperience));
    }
    if !x.medical {
      score' := score' + 2;
      reasons' := reasons' + [MedicalNone.Text()];
      Single(Effect(2, true, MedicalNone));
    }
    Extend(MedicalCareRule(x), MedicalExperienceRule(x));
    Extend(MedicalCareRule(x) + MedicalExperienceRule(x), MedicalNoneRule(x));
    assert reasons == reasons + [] && warnings == warnings + [];
  }

  /** The size rule, when a size is preferred. */
  method SizeRules(x: MatchInputs, score: int, reasons: seq<string>, warnings: seq<string>)
    returns (score': int, reasons': seq<string>, warnings': seq<string>)
    ensures Adds(score, reasons, warnings, SizeRule(x), score', reasons', warnings')
  {
    score', reasons', warnings' := score, reasons, warnings;
    if x.prefersSize != "" && x.prefersSize != "any" {
      if x.prefersSize == ToLower(x.size) {
        score' := score' + 8;
        reasons' := reasons' + [SizeMatch(x.size).Text()];
        Single(Effect(8, true, SizeMatch(x.size)));
      } else {
        score' := score' - 4;
        warnings' := warnings' + [SizeMismatch(x.prefersSize).Text()];
        Single(Effect(-4, false, SizeMismatch(x.prefersSize)));
      }
    } else {
      assert reasons' == reasons' + [] && warnings' == warnings' + [];
    }
  }

  /** One fired rule: its score change and its message in its own list. */
  lemma Single(e: Effect)
    ensures Total([e]) == e.delta
    ensures Texts([e], e.isReason) == [e.note.Text()] && Texts([e], !e.isReason) == []
  {
    assert [e][1..] == [];
  }

  // ---------------------------------------------------------------------
  // compute_match: properties
  // ---------------------------------------------------------------------

  /** The score of the rules before the size rule, one after another. */
  lemma TotalBeforeSize(x: MatchInputs)
    ensures Total(EffectsBeforeSize(x)) == Total(EnergyRule(x)) + Total(YardYesRule(x)) + Total(YardNoRule(x))
      + Total(MedicalCareRule(x)) + Total(MedicalExperienceRule(x)) + Total(MedicalNoneRule(x))
  {
    TotalConcat(YardYesRule(x), YardNoRule(x));
    TotalConcat(MedicalCareRule(x), MedicalExperienceRule(x));
    TotalConcat(MedicalCareRule(x) + MedicalExperienceRule(x), MedicalNoneRule(x));
    TotalConcat(EnergyRule(x), YardEffects(x));
    TotalConcat(EnergyRule(x) + YardEffects(x), MedicalEffects(x));
  }

  /** The unclamped score never leaves [8, 80], so the clamp to [0, 100] never
      changes it. */
  lemma {:induction false} RawScoreRange(pet: Pet, user: Adopter)
    ensures var raw := 50 + Total(Effects(Inputs(pet, user)));
      8 <= raw <= 80 && MatchOf(pet, user).score == raw
  {
    var x := Inputs(pet, user);
    TotalBeforeSize(x);
    TotalConcat(EffectsBeforeSize(x), SizeRule(x));
  }

  /** The number of fired rules of the energy/hours chain. */
  function EnergyCount(e: seq<Effect>): nat {
    if e == [] then 0 else (if e[0].note.IsEnergyNote() then 1 else 0) + EnergyCount(e[1..])
  }

  lemma {:induction false} EnergyCountConcat(a: seq<Effect>, b: seq<Effect>)
    ensures EnergyCount(a + b) == EnergyCount(a) + EnergyCount(b)
  {
    if a == [] {
      assert a + b == b;
    } else {
      assert (a + b)[1..] == a[1..] + b;
      EnergyCountConcat(a[1..], b);
    }
  }

  /** Only the energy/hours chain produces its messages. */
  lemma OnlyEnergyNotes(x: MatchInputs)
    ensures EnergyCount(YardEffects(x)) == 0 && EnergyCount(MedicalEffects(x)) == 0
    ensures EnergyCount(SizeRule(x)) == 0
  {
    EnergyCountConcat(YardYesRule(x), YardNoRule(x));
    EnergyCountConcat(MedicalCareRule(x), MedicalExperienceRule(x));
    EnergyCountConcat(MedicalCareRule(x) + MedicalExperienceRule(x), MedicalNoneRule(x));
  }

  /** The energy/hours rules exclude each other: at most one of their messages
      appears, and together they move the score by -18, +10, +4 or nothing. */
  lemma EnergyRulesExclusive(pet: Pet, user: Adopter)
    ensures EnergyCount(Effects(Inputs(pet, user))) <= 1
    ensures Total(EnergyRule(Inputs(pet, user))) in {-18, 10, 4, 0}
  {
    var x := Inputs(pet, user);
    OnlyEnergyNotes(x);
    EnergyCountConcat(EnergyRule(x), YardEffects(x));
    EnergyCountConcat(EnergyRule(x) + YardEffects(x), MedicalEffects(x));
    EnergyCountConcat(EffectsBeforeSize(x), SizeRule(x));
  }

  /** With no size preference (`any`, empty or absent) the size rule adds
      nothing; otherwise it adds +8 when the sizes agree ignoring case and -4
      when they do not. */
  lemma {:induction false} SizeRuleEffect(pet: Pet, user: Adopter)
    ensures var x := Inputs(pet, user);
      MatchOf(pet, user).score == 50 + Total(EffectsBeforeSize(x))
        + (if !SizeRuleApplies(x) then 0
           else if x.prefersSize == ToLower(x.size) then 8 else -4)
  {
    var x := Inputs(pet, user);
    TotalConcat(EffectsBeforeSize(x), SizeRule(x));
    RawScoreRange(pet, user);
  }

  /** The score depends on the pet's size only up to ASCII case. */
  lemma {:induction false} SizeCaseInsensitive(pet: Pet, user: Adopter, other: string)
    requires pet.size.Some? && ToLower(other) == ToLower(pet.size.value)
    ensures MatchOf(pet.(size := Some(other)), user).score == MatchOf(pet, user).score
  {
    SizeRuleEffect(pet, user);
    SizeRuleEffect(pet.(size := Some(other)), user);
    var x := Inputs(pet, user);
    assert Inputs(pet.(size := Some(other)), user) == x.(size := other);
    BeforeSizeIgnoresSize(x, other);
  }

  /** The rules before the size rule do not read the pet's size. */
  lemma BeforeSizeIgnoresSize(x: MatchInputs, size: string)
    ensures EffectsBeforeSize(x.(size := size)) == EffectsBeforeSize(x)
  {
    var x' := x.(size := size);
    assert EnergyRule(x') == EnergyRule(x);
    assert YardEffects(x') == YardEffects(x);
    assert MedicalEffects(x') == MedicalEffects(x);
  }

  /** The lists keep the first three messages generated, in rule order. */
  lemma MatchListsCapped(pet: Pet, user: Adopter)
    ensures var m := MatchOf(pet, user);
      var e := Effects(Inputs(pet, user));
      && |m.reasons| == (if |Texts(e, true)| < 3 then |Texts(e, true)| else 3)
      && m.reasons == Texts(e, true)[..|m.reasons|]
      && |m.warnings| == (if |Texts(e, false)| < 3 then |Texts(e, false)| else 3)
      && m.warnings == Texts(e, false)[..|m.warnings|]
  {
  }

  // ---------------------------------------------------------------------
  // build_why_urgent
  // ---------------------------------------------------------------------

  /** The reasons of the rules that fire, in order, for a pet that has been
      listed for `days` days. */
  function UrgencyRules(pet: Pet, days: real): seq<string> {
    var energy := pet.energy.GetOr(3);
    var medical := pet.medicalNeeds.GetOr(false);
    var views := pet.views7d.GetOr(0.0);
    (if medical then ["Medical needs"] else [])
    + (if energy >= 4 then ["High energy"] else [])
    + (if days >= 7.0 then ["Long stay (" + NatToString(days.Floor) + "d)"] else [])
    + (if views <= 1.0 then ["Low visibility"] else [])
  }

  /** The `whyUrgent` list of `build_why_urgent`. */
  function WhyUrgentOf(pet: Pet, days: real): seq<string> {
    var fired := UrgencyRules(pet, days);
    Take(if fired == [] then ["Needs exposure"] else fired, 3)
  }

  /** `build_why_urgent(pet)` with the days since listing given. `int(days)`
      truncates, which for the seven days or more that the message needs is
      the floor. */
  method BuildWhyUrgent(pet: Pet, days: real) returns (reasons: seq<string>)
    ensures reasons == WhyUrgentOf(pet, days)
    ensures 1 <= |reasons| <= 3
  {
    var energy := pet.energy.GetOr(3);
    var medical := pet.medicalNeeds.GetOr(false);
    var views := pet.views7d.GetOr(0.0);
    var all: seq<string> := [];
    if medical {
      all := all + ["Medical needs"];
    }
    if energy >= 4 {
      all := all + ["High energy"];
    }
    if days >= 7.0 {
      all := all + ["Long stay (" + NatToString(days.Floor) + "d)"];
    }
    if views <= 1.0 {
      all := all + ["Low visibility"];
    }
    if all == [] {
      all := all + ["Needs exposure"];
    }
    reasons := Take(all, 3);
  }

  /** "Needs exposure" is given exactly when no rule fires, and then alone;
      otherwise the list is the first three fired reasons. */
  lemma {:induction false} WhyUrgentFallback(pet: Pet, days: real)
    ensures var r := WhyUrgentOf(pet, days);
      && ("Needs exposure" in r <==> UrgencyRules(pet, days) == [])
      && (UrgencyRules(pet, days) == [] ==> r == ["Needs exposure"])
      && (UrgencyRules(pet, days) != [] ==> r == Take(UrgencyRules(pet, days), 3))
  {
    var fired := UrgencyRules(pet, days);
    if fired != [] {
      assert forall s :: s in fired ==> s[0] != 'N';
      assert "Needs exposure"[0] == 'N';
    }
  }

  /** A pet that needs medical care and has been listed at least a week, with
      few views, gets exactly the three reasons, medical first. */
  lemma WhyUrgentExample(pet: Pet, days: real)
    requires pet.medicalNeeds == Some(true) && pet.energy == Some(3) && pet.views7d == Some(0.0)
    requires days >= 7.0
    ensures WhyUrgentOf(pet, days) == ["Medical needs", "Long stay (" + NatToString(days.Floor) + "d)", "Low visibility"]
  {
  }

  // ---------------------------------------------------------------------
  // similarity and diversify_rank
  // ---------------------------------------------------------------------

  /** `similarity(a, b)`: 3 for the same species, 6 for the same breed, 1 for
      the same size (missing fields compare as `""`). */
  function Similarity(a: Pet, b: Pet): int {
    (if a.species.GetOr("") == b.species.GetOr("") then 3 else 0)
    + (if a.breed.GetOr("") == b.breed.GetOr("") then 6 else 0)
    + (if a.size.GetOr("") == b.size.GetOr("") then 1 else 0)
  }

  lemma SimilarityShape(a: Pet, b: Pet)
    ensures 0 <= Similarity(a, b) <= 10
    ensures Similarity(a, b) == Similarity(b, a)
    ensures Similarity(a, a) == 10
    ensures Similarity(a, b) == 10 <==>
      a.species.GetOr("") == b.species.GetOr("") && a.breed.GetOr("") == b.breed.GetOr("")
      && a.size.GetOr("") == b.size.GetOr("")
  {
  }

  /** `min(similarity(c, p) for p in picked)`. */
  function MinSimilarity(c: Pet, picked: seq<Pet>): int
    requires picked != []
  {
    if |picked| == 1 then Similarity(c, picked[0])
    else
      var rest := MinSimilarity(c, picked[1..]);
      if Similarity(c, picked[0]) <= rest then Similarity(c, picked[0]) else rest
  }

  /** The minimum is the similarity to one picked pet and at most that to any. */
  lemma {:induction false} MinSimilarityIsMin(c: Pet, picked: seq<Pet>)
    requires picked != []
    ensures forall i :: 0 <= i < |picked| ==> MinSimilarity(c, picked) <= Similarity(c, picked[i])
    ensures exists i :: 0 <= i < |picked| && MinSimilarity(c, picked) == Similarity(c, picked[i])
  {
    if |picked| > 1 {
      MinSimilarityIsMin(c, picked[1..]);
      assert forall i :: 1 <= i < |picked| ==> picked[i] == picked[1..][i - 1];
      var j :| 0 <= j < |picked| - 1 && MinSimilarity(c, picked[1..]) == Similarity(c, picked[1..][j]);
      assert picked[1..][j] == picked[j + 1];
    }
  }

  /** `b` is the candidate the inner loop settles on: its score is minimal and
      every earlier candidate's is strictly larger (the loop replaces its best
      only on `<`). */
  predicate IsBest(remaining: seq<Pet>, picked: seq<Pet>, b: nat)
    requires picked != []
  {
    && b < |remaining|
    && (forall j :: 0 <= j < |remaining| ==> MinSimilarity(remaining[j], picked) >= MinSimilarity(remaining[b], picked))
    && (forall j :: 0 <= j < b ==> MinSimilarity(remaining[j], picked) > MinSimilarity(remaining[b], picked))
  }

  /** The index the inner loop ends with, scanning left to right. */
  function BestIndex(remaining: seq<Pet>, picked: seq<Pet>): (b: nat)
    requires remaining != [] && picked != []
    ensures b < |remaining|
  {
    var n := |remaining|;
    if n == 1 then 0
    else
      var b := BestIndex(remaining[..n - 1], picked);
      if MinSimilarity(remaining[n - 1], picked) < MinSimilarity(remaining[b], picked) then n - 1 else b
  }

  /** One more step of the scan: the new candidate wins only when strictly better. */
  lemma BestIndexStep(remaining: seq<Pet>, picked: seq<Pet>, i: nat)
    requires picked != [] && 1 <= i < |remaining|
    ensures var b := BestIndex(remaining[..i], picked);
      BestIndex(remaining[..i + 1], picked)
        == if MinSimilarity(remaining[i], picked) < MinSimilarity(remaining[b], picked) then i else b
  {
    assert remaining[..i + 1][..i] == remaining[..i];
  }

  /** The scan finds the minimal score, the earliest index on a tie. */
  lemma {:induction false} BestIndexIsBest(remaining: seq<Pet>, picked: seq<Pet>)
    requires remaining != [] && picked != []
    ensures IsBest(remaining, picked, BestIndex(remaining, picked))
  {
    var n := |remaining|;
    if n > 1 {
      var init := remaining[..n - 1];
      BestIndexIsBest(init, picked);
      assert forall j :: 0 <= j < n - 1 ==> init[j] == remaining[j];
    }
  }

  /** Only one index fits the tie rule. */
  lemma BestUnique(remaining: seq<Pet>, picked: seq<Pet>, b: nat, b': nat)
    requires picked != []
    requires IsBest(remaining, picked, b) && IsBest(remaining, picked, b')
    ensures b == b'
  {
    assert MinSimilarity(remaining[b], picked) == MinSimilarity(remaining[b'], picked);
  }

  /** `xs.remove(x)`: the first element equal to `x` goes; the call is only
      made with `x` in `xs`. */
  function RemoveFirst(xs: seq<Pet>, x: Pet): (r: seq<Pet>)
    ensures x in xs ==> |r| == |xs| - 1
  {
    if xs == [] then []
    else if xs[0] == x then xs[1..]
    else [xs[0]] + RemoveFirst(xs[1..], x)
  }

  /** Removing an element keeps every other one, as often as it occurred. */
  lemma {:induction false} RemoveFirstMultiset(xs: seq<Pet>, x: Pet)
    requires x in xs
    ensures multiset(RemoveFirst(xs, x)) + multiset{x} == multiset(xs)
  {
    assert xs == [xs[0]] + xs[1..];
    if xs[0] != x {
      RemoveFirstMultiset(xs[1..], x);
    }
  }

  /** Dropping the head of a list of a best index `b > 0` keeps `b - 1` best,
      and the head differs from the chosen element. */
  lemma IsBestTail(remaining: seq<Pet>, picked: seq<Pet>, b: nat)
    requires picked != [] && IsBest(remaining, picked, b) && b > 0
    ensures IsBest(remaining[1..], picked, b - 1) && remaining[0] != remaining[b]
  {
    var tail := remaining[1..];
    assert forall j :: 0 <= j < |tail| ==> tail[j] == remaining[j + 1];
    assert MinSimilarity(remaining[0], picked) > MinSimilarity(remaining[b], picked);
  }

  lemma SliceShift(s: seq<Pet>, b: nat)
    requires 0 < b < |s|
    ensures s[..b] + s[b + 1..] == [s[0]] + (s[1..][..b - 1] + s[1..][b..])
  {
    assert s[..b] == [s[0]] + s[1..][..b - 1];
    assert s[b + 1..] == s[1..][b..];
  }

  /** The element removed is the chosen one itself: an equal element earlier
      would have the same score and would have been chosen. */
  lemma {:induction false} RemoveBest(remaining: seq<Pet>, picked: seq<Pet>, b: nat)
    requires picked != [] && IsBest(remaining, picked, b)
    ensures RemoveFirst(remaining, remaining[b]) == remaining[..b] + remaining[b + 1..]
  {
    if b == 0 {
      assert remaining[..0] + remaining[1..] == remaining[1..];
    } else {
      IsBestTail(remaining, picked, b);
      RemoveBest(remaining[1..], picked, b - 1);
      SliceShift(remaining, b);
    }
  }

  /** The greedy selection from the point where `picked` is chosen and
      `remaining` is left, as the `while` loop runs it. */
  function Greedy(picked: seq<Pet>, remaining: seq<Pet>, k: int): seq<Pet>
    requires picked != []
    decreases |remaining|
  {
    if remaining == [] || |picked| >= k then picked
    else
      var b := BestIndex(remaining, picked);
      Greedy(picked + [remaining[b]], RemoveFirst(remaining, remaining[b]), k)
  }

  /** What `diversify_rank(candidates, k)` returns. */
  function Diversify(candidates: seq<Pet>, k: int): seq<Pet> {
    if candidates == [] then [] else Greedy([candidates[0]], candidates[1..], k)
  }

  /** `diversify_rank(candidates, k)`: start from the first candidate, then
      repeatedly take the remaining candidate least similar to everything
      picked so far. */
  method DiversifyRank(candidates: seq<Pet>, k: int) returns (picked: seq<Pet>)
    ensures picked == Diversify(candidates, k)
  {
    if candidates == [] {
      return [];
    }
    picked := [candidates[0]];
    var remaining := candidates[1..];
    while remaining != [] && |picked| < k
      invariant picked != []
      invariant Greedy(picked, remaining, k) == Diversify(candidates, k)
      decreases |remaining|
    {
      var best := 0;
      var bestScore := MinSimilarity(remaining[0], picked);
      var i := 1;
      while i < |remaining|
        invariant 1 <= i <= |remaining|
        invariant best == BestIndex(remaining[..i], picked)
        invariant bestScore == MinSimilarity(remaining[best], picked)
      {
        BestIndexStep(remaining, picked, i);
        var sim := MinSimilarity(remaining[i], picked);
        if sim < bestScore {
          best := i;
          bestScore := sim;
        }
        i := i + 1;
      }
      assert remaining[..i] == remaining;
      picked := picked + [remaining[best]];
      remaining := RemoveFirst(remaining, remaining[best]);
    }
  }

  /** The invariant of the selection: the picked list never exceeds
      `max(k, 1)` and grows until one of the lists runs out, it keeps what was
      picked as its prefix, and it takes nothing that was not there. */
  lemma {:induction false} GreedyShape(picked: seq<Pet>, remaining: seq<Pet>, k: int)
    requires picked != []
    requires |picked| <= (if k < 1 then 1 else k)
    ensures var r := Greedy(picked, remaining, k);
      var cap := if k < 1 then 1 else k;
      && |r| == (if |picked| + |remaining| < cap then |picked| + |remaining| else cap)
      && r[..|picked|] == picked
      && multiset(r) <= multiset(picked) + multiset(remaining)
    decreases |remaining|
  {
    if remaining != [] && |picked| < k {
      var b := BestIndex(remaining, picked);
      var x := remaining[b];
      var rest := RemoveFirst(remaining, x);
      RemoveFirstMultiset(remaining, x);
      var next := picked + [x];
      GreedyShape(next, rest, k);
      var r := Greedy(next, rest, k);
      assert r[..|picked|] == r[..|next|][..|picked|];
    }
  }

  /** `diversify_rank`: nothing for no candidates; otherwise the first
      candidate comes first, the length is `min(len(candidates), max(k, 1))`,
      and every pick is a candidate, none used more often than it occurs. */
  lemma {:induction false} DiversifyShape(candidates: seq<Pet>, k: int)
    ensures candidates == [] ==> Diversify(candidates, k) == []
    ensures candidates != [] ==>
      var r := Diversify(candidates, k);
      var cap := if k < 1 then 1 else k;
      && |r| == (if |candidates| < cap then |candidates| else cap)
      && r[0] == candidates[0]
      && multiset(r) <= multiset(candidates)
  {
    if candidates != [] {
      GreedyShape([candidates[0]], candidates[1..], k);
      assert candidates == [candidates[0]] + candidates[1..];
    }
  }

  /** Each pick after the first is the remaining candidate least similar to
      what was picked, the earliest one on a tie, and what is left afterwards
      is the rest without exactly that candidate. */
  lemma {:induction false} GreedyStep(picked: seq<Pet>, remaining: seq<Pet>, k: int)
    requires picked != [] && remaining != [] && |picked| < k
    ensures exists b: nat :: (IsBest(remaining, picked, b)
      && Greedy(picked, remaining, k)
         == Greedy(picked + [remaining[b]], remaining[..b] + remaining[b + 1..], k)
      && |Greedy(picked, remaining, k)| > |picked|
      && Greedy(picked, remaining, k)[|picked|] == remaining[b])
  {
    var b := BestIndex(remaining, picked);
    BestIndexIsBest(remaining, picked);
    RemoveBest(remaining, picked, b);
    var next := picked + [remaining[b]];
    var rest := RemoveFirst(remaining, remaining[b]);
    GreedyShape(next, rest, k);
    assert Greedy(next, rest, k)[..|next|][|picked|] == remaining[b];
  }

  // ---------------------------------------------------------------------
  // Routes
  // ---------------------------------------------------------------------

  /** `max(1, min(50, limit))` on the parsed `limit` argument (default 12). */
  function RouteLimit(limit: Option<int>): (r: int)
    ensures 1 <= r <= 50
    ensures limit.None? ==> r == 12
    ensures limit.Some? && 1 <= limit.value <= 50 ==> r == limit.value
    ensures limit.Some? && limit.value < 1 ==> r == 1
    ensures limit.Some? && limit.value > 50 ==> r == 50
  {
    Clamp(limit.GetOr(12), 1, 50)
  }
}
