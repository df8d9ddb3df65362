/** The learning-progress store (lib/services/progressService.ts).

    `ProgressService` keeps one record per learning module (completed
    sections, questions asked, minutes spent) and two global totals, and
    writes the whole store to browser storage after every recording,
    marking, reset and import; the lazy creation of a record on lookup and
    a score check below 80 are not saved. Browser
    storage is the field `storage`; `JSON.parse` and `JSON.stringify` are
    abstracted to the `Payload` a parse yields; `new Date()` is the `now`
    parameter of every operation. */
module ProgressTracking {
  import opened Numeric
  import opened Sequences

  /** The value of a date field: a `Date` (a valid instant, or the
      `Invalid Date` that `new Date(undefined)` gives), or the `null` or
      missing value that `loadProgress` leaves unconverted in a module record. */
  datatype Time = Instant(ms: int) | InvalidDate | NullDate | Undefined

  datatype ModuleProgress = ModuleProgress(
    moduleId: string,
    completedSections: seq<string>,
    questionsAsked: int,
    timeSpent: int,  // minutes
    lastAccessed: Time,
    completed: bool)

  datatype UserProgress = UserProgress(
    modules: map<string, ModuleProgress>,
    totalQuestionsAsked: int,
    totalTimeSpent: int,
    lastUpdated: Time)

  /** A date field as `JSON.parse` yields it: missing, `null`, the ISO text
      of an instant, or some other truthy text that is no date. */
  datatype JsonDate = Absent | JsonNull | DateText(ms: int) | BadText

  /** A module record as `JSON.parse` yields it. */
  datatype ModuleEntry = ModuleEntry(
    moduleId: string,
    completedSections: seq<string>,
    questionsAsked: int,
    timeSpent: int,
    lastAccessed: JsonDate,
    completed: bool)

  /** A parsed JSON value as far as the shape checks look at it: each
      top-level field is present with a usable value, or None when it is
      missing, falsy or (for the totals) not a number. A parse result that
      is not an object has every field None. */
  datatype Payload = Payload(
    modules: Option<map<string, ModuleEntry>>,
    totalQuestionsAsked: Option<int>,
    totalTimeSpent: Option<int>,
    lastUpdated: JsonDate)

  /** The storage slot `financeGPT_user_progress`: nothing (or an empty
      string), text `JSON.parse` rejects, or a parsed value. */
  datatype Stored = Missing | Unparseable | Saved(payload: Payload)

  // ---------------------------------------------------------------------
  // Records and the lazily created entry

  /** `getDefaultProgress`. */
  function DefaultProgress(now: Time): UserProgress
  {
    UserProgress(map[], 0, 0, now)
  }

  /** The record `getModuleProgress` creates for a module seen for the first time. */
  function NewRecord(moduleId: string, now: Time): ModuleProgress
  {
    ModuleProgress(moduleId, [], 0, 0, now, false)
  }

  /** The record `getModuleProgress` returns: the stored one, or a new one. */
  function RecordFor(m: map<string, ModuleProgress>, moduleId: string, now: Time): ModuleProgress
  {
    if moduleId in m then m[moduleId] else NewRecord(moduleId, now)
  }

  /** The store after `getModuleProgress(moduleId)`: the record exists. */
  function Touch(p: UserProgress, moduleId: string, now: Time): UserProgress
  {
    p.(modules := p.modules[moduleId := RecordFor(p.modules, moduleId, now)])
  }

  /** The store with the module's record replaced by `r` after lazy creation. */
  function Put(p: UserProgress, moduleId: string, r: ModuleProgress): UserProgress
  {
    p.(modules := p.modules[moduleId := r])
  }

  /** The time stamp `saveProgress` writes; without a window it returns early. */
  function Stamp(p: UserProgress, hasWindow: bool, now: Time): UserProgress
  {
    if hasWindow then p.(lastUpdated := now) else p
  }

  // ---------------------------------------------------------------------
  // The operations, as functions of the store (before the save stamp)

  function WithAccess(p: UserProgress, moduleId: string, now: Time): UserProgress
  {
    Put(p, moduleId, RecordFor(p.modules, moduleId, now).(lastAccessed := now))
  }

  function WithQuestion(p: UserProgress, moduleId: string, now: Time): UserProgress
  {
    var r := RecordFor(p.modules, moduleId, now);
    Put(p, moduleId, r.(questionsAsked := r.questionsAsked + 1))
      .(totalQuestionsAsked := p.totalQuestionsAsked + 1)
  }

  function WithTime(p: UserProgress, moduleId: string, minutes: int, now: Time): UserProgress
  {
    var r := RecordFor(p.modules, moduleId, now);
    Put(p, moduleId, r.(timeSpent := r.timeSpent + minutes))
      .(totalTimeSpent := p.totalTimeSpent + minutes)
  }

  /** `markSectionCompleted` pushes the section only when it is not yet listed. */
  function WithSectionCompleted(p: UserProgress, moduleId: string, section: string, now: Time): UserProgress
  {
    var r := RecordFor(p.modules, moduleId, now);
    if section in r.completedSections then Touch(p, moduleId, now)
    else Put(p, moduleId, r.(completedSections := r.completedSections + [section]))
  }

  function WithSectionIncomplete(p: UserProgress, moduleId: string, section: string, now: Time): UserProgress
  {
    var r := RecordFor(p.modules, moduleId, now);
    Put(p, moduleId, r.(completedSections := RemoveAll(r.completedSections, section)))
  }

  /** `resetModuleProgress`: drop the record and take its counters off the totals. */
  function WithoutModule(p: UserProgress, moduleId: string): UserProgress
  {
    if moduleId in p.modules then
      var r := p.modules[moduleId];
      UserProgress(p.modules - {moduleId}, p.totalQuestionsAsked - r.questionsAsked,
                   p.totalTimeSpent - r.timeSpent, p.lastUpdated)
    else p
  }

  // ---------------------------------------------------------------------
  // The progress score of calculateModuleProgress

  /** Sections completed, out of `totalSections`, worth up to 60 points. */
  function SectionFactor(done: int, totalSections: int): real
    requires totalSections > 0
  {
    Min(done as real / totalSections as real * 60.0, 60.0)
  }

  /** Questions asked, full marks at 10, worth up to 30 points. */
  function EngagementFactor(questions: int): real
  {
    Min(questions as real / 10.0 * 30.0, 30.0)
  }

  /** Minutes spent, full marks at 30, worth up to 10 points. */
  function TimeFactor(minutes: int): real
  {
    Min(minutes as real / 30.0 * 10.0, 10.0)
  }

  function ModuleScore(done: int, questions: int, minutes: int, totalSections: int): int
    requires totalSections > 0
  {
    var s := Round(SectionFactor(done, totalSections) + EngagementFactor(questions) + TimeFactor(minutes));
    if s <= 100 then s else 100
  }

  function RecordScore(r: ModuleProgress, totalSections: int): int
    requires totalSections > 0
  {
    ModuleScore(|r.completedSections|, r.questionsAsked, r.timeSpent, totalSections)
  }

  /** The store after `calculateModuleProgress`: a score of 80 or more marks
      the module completed. */
  function WithCompletionCheck(p: UserProgress, moduleId: string, now: Time, totalSections: int): UserProgress
    requires totalSections > 0
  {
    var r := RecordFor(p.modules, moduleId, now);
    if RecordScore(r, totalSections) >= 80 then Put(p, moduleId, r.(completed := true))
    else Touch(p, moduleId, now)
  }

  // ---------------------------------------------------------------------
  // Persistence and import

  /** `JSON.stringify` of a date field as a later parse sees it: an
      invalid date and `null` are written as `null`, and a missing value is
      left out. */
  function ToJson(t: Time): JsonDate
  {
    match t
    case Instant(ms) => DateText(ms)
    case InvalidDate => JsonNull
    case NullDate => JsonNull
    case Undefined => Absent
  }

  /** `new Date(x)`: a missing value gives an invalid date, `null` the epoch. */
  function NewDate(d: JsonDate): Time
  {
    match d
    case Absent => InvalidDate
    case JsonNull => Instant(0)
    case DateText(ms) => Instant(ms)
    case BadText => InvalidDate
  }

  /** What `loadProgress` leaves in a module's `lastAccessed`: only a truthy
      value is passed to `new Date`. */
  function LoadedDate(d: JsonDate): Time
  {
    match d
    case Absent => Undefined
    case JsonNull => NullDate
    case DateText(ms) => Instant(ms)
    case BadText => InvalidDate
  }

  function EntryOf(r: ModuleProgress): ModuleEntry
  {
    ModuleEntry(r.moduleId, r.completedSections, r.questionsAsked, r.timeSpent, ToJson(r.lastAccessed), r.completed)
  }

  /** A parsed module record with its date field converted by `date`. */
  function RecordOf(e: ModuleEntry, date: JsonDate -> Time): ModuleProgress
  {
    ModuleProgress(e.moduleId, e.completedSections, e.questionsAsked, e.timeSpent, date(e.lastAccessed), e.completed)
  }

  function ConvertModules(m: map<string, ModuleEntry>, date: JsonDate -> Time): map<string, ModuleProgress>
  {
    map k | k in m :: RecordOf(m[k], date)
  }

  /** `JSON.stringify` of the store as a later parse sees it. */
  function Serialize(p: UserProgress): Payload
  {
    Payload(Some(map k | k in p.modules :: EntryOf(p.modules[k])),
            Some(p.totalQuestionsAsked), Some(p.totalTimeSpent), ToJson(p.lastUpdated))
  }

  /** The check in `loadProgress`: `modules` is present and `lastUpdated` is truthy. */
  predicate LoadShapeOk(payload: Payload)
  {
    payload.modules.Some? && (payload.lastUpdated.DateText? || payload.lastUpdated.BadText?)
  }

  /** The check in `importProgress`: `modules` is present and
      `totalQuestionsAsked` is a number. */
  predicate ImportShapeOk(payload: Payload)
  {
    payload.modules.Some? && payload.totalQuestionsAsked.Some?
  }

  predicate HasTotals(payload: Payload)
  {
    payload.totalQuestionsAsked.Some? && payload.totalTimeSpent.Some?
  }

  /** Stored values the typed store can hold once loaded: an accepted value carries both totals. */
  predicate Loadable(stored: Stored)
  {
    stored.Saved? && LoadShapeOk(stored.payload) ==> HasTotals(stored.payload)
  }

  /** `loadProgress`: the stored store if it passes the shape check,
      otherwise (no window, nothing stored, unparseable, wrong shape) the
      default store. The top-level date is converted; a module date only
      when it is truthy. */
  function LoadProgress(hasWindow: bool, stored: Stored, now: Time): UserProgress
    requires Loadable(stored)
  {
    if hasWindow && stored.Saved? && LoadShapeOk(stored.payload) then
      var pl := stored.payload;
      UserProgress(ConvertModules(pl.modules.value, LoadedDate), pl.totalQuestionsAsked.value,
                   pl.totalTimeSpent.value, NewDate(pl.lastUpdated))
    else DefaultProgress(now)
  }

  /** The store an accepted import installs, before the save stamp: every
      date field, at the top and in each module, goes through `new Date`,
      so a missing one becomes an invalid date and a `null` one the epoch. */
  function Imported(payload: Payload): UserProgress
    requires ImportShapeOk(payload) && payload.totalTimeSpent.Some?
  {
    UserProgress(ConvertModules(payload.modules.value, NewDate), payload.totalQuestionsAsked.value,
                 payload.totalTimeSpent.value, NewDate(payload.lastUpdated))
  }

  // ---------------------------------------------------------------------
  // Aggregates: the totals against the sum over modules

  datatype Counter = Questions | Minutes

  function Measure(r: ModuleProgress, c: Counter): int
  {
    match c
    case Questions => r.questionsAsked
    case Minutes => r.timeSpent
  }

  /** The sum of one counter over all module records. */
  ghost function SumOf(m: map<string, ModuleProgress>, c: Counter): int
    decreases |m.Keys|
  {
    if m.Keys == {} then 0
    else
      var k :| k in m.Keys;
      assert m.Keys - {k} < m.Keys;
      Measure(m[k], c) + SumOf(m - {k}, c)
  }

  ghost function Total(p: UserProgress, c: Counter): int
  {
    match c
    case Questions => p.totalQuestionsAsked
    case Minutes => p.totalTimeSpent
  }

  /** How far a global total has drifted from the sum over modules. */
  ghost function Drift(p: UserProgress, c: Counter): int
  {
    Total(p, c) - SumOf(p.modules, c)
  }

  /** The totals equal the sums over modules. */
  ghost predicate Consistent(p: UserProgress)
  {
    Drift(p, Questions) == 0 && Drift(p, Minutes) == 0
  }

  /** What every record the service itself creates satisfies. */
  ghost predicate WellFormed(p: UserProgress)
  {
    forall k :: k in p.modules ==>
      && p.modules[k].moduleId == k
      && NoDuplicates(p.modules[k].completedSections)
      && p.modules[k].questionsAsked >= 0
      && p.modules[k].timeSpent >= 0
  }

  // ---------------------------------------------------------------------
  // Lemmas: the sum over modules

  /** Any record can be taken out of the sum first. */
  lemma {:induction false} SumRemove(m: map<string, ModuleProgress>, k: string, c: Counter)
    requires k in m
    ensures SumOf(m, c) == Measure(m[k], c) + SumOf(m - {k}, c)
    decreases |m.Keys|
  {
    var j :| j in m.Keys && SumOf(m, c) == Measure(m[j], c) + SumOf(m - {j}, c);
    if j != k {
      var withoutJ, withoutK := m - {j}, m - {k};
      assert SumOf(withoutJ, c) == Measure(m[k], c) + SumOf(withoutJ - {k}, c) by {
        assert withoutJ.Keys < m.Keys;
        SumRemove(withoutJ, k, c);
      }
      assert SumOf(withoutK, c) == Measure(m[j], c) + SumOf(withoutK - {j}, c) by {
        assert withoutK.Keys < m.Keys;
        SumRemove(withoutK, j, c);
      }
      assert withoutJ - {k} == withoutK - {j};
    }
  }

  /** Replacing (or adding) the record under `k` changes the sum by the difference. */
  lemma PutSum(m: map<string, ModuleProgress>, k: string, r: ModuleProgress, c: Counter)
    ensures SumOf(m[k := r], c) == SumOf(m, c) - (if k in m then Measure(m[k], c) else 0) + Measure(r, c)
  {
    SumRemove(m[k := r], k, c);
    assert m[k := r] - {k} == m - {k};
    if k in m {
      SumRemove(m, k, c);
    } else {
      assert m - {k} == m;
    }
  }

  /** Writing back the module's record with the counters it had (or zero
      counters for a new record) leaves both drifts as they were. */
  lemma PutKeepsDrift(p: UserProgress, moduleId: string, r: ModuleProgress, now: Time)
    requires r.questionsAsked == RecordFor(p.modules, moduleId, now).questionsAsked
    requires r.timeSpent == RecordFor(p.modules, moduleId, now).timeSpent
    ensures Drift(Put(p, moduleId, r), Questions) == Drift(p, Questions)
    ensures Drift(Put(p, moduleId, r), Minutes) == Drift(p, Minutes)
  {
    PutSum(p.modules, moduleId, r, Questions);
    PutSum(p.modules, moduleId, r, Minutes);
  }

  // ---------------------------------------------------------------------
  // Lemmas: lazy creation and the counters

  /** `getModuleProgress` creates exactly one record, a blank one, for an
      absent module, and leaves the store as it was for a present one; the
      totals and their agreement with the sums are untouched. */
  lemma TouchCreatesOnce(p: UserProgress, moduleId: string, now: Time)
    ensures var t := Touch(p, moduleId, now);
      && moduleId in t.modules
      && (moduleId in p.modules ==> t == p)
      && (moduleId !in p.modules ==>
            && t.modules[moduleId] == ModuleProgress(moduleId, [], 0, 0, now, false)
            && t.modules.Keys == p.modules.Keys + {moduleId}
            && forall k :: k in p.modules ==> t.modules[k] == p.modules[k])
      && t.totalQuestionsAsked == p.totalQuestionsAsked && t.totalTimeSpent == p.totalTimeSpent
      && Drift(t, Questions) == Drift(p, Questions) && Drift(t, Minutes) == Drift(p, Minutes)
  {
    if moduleId in p.modules {
      assert p.modules[moduleId := p.modules[moduleId]] == p.modules;
    }
    PutKeepsDrift(p, moduleId, RecordFor(p.modules, moduleId, now), now);
  }

  /** A question raises the module's count and the global count by one,
      changes no other module, and keeps the totals in step with the sums. */
  lemma QuestionAccounting(p: UserProgress, moduleId: string, now: Time)
    ensures var q := WithQuestion(p, moduleId, now);
      && moduleId in q.modules
      && q.modules[moduleId].questionsAsked == RecordFor(p.modules, moduleId, now).questionsAsked + 1
      && q.modules[moduleId].timeSpent == RecordFor(p.modules, moduleId, now).timeSpent
      && q.totalQuestionsAsked == p.totalQuestionsAsked + 1
      && q.totalTimeSpent == p.totalTimeSpent
      && (forall k :: k != moduleId ==> (k in q.modules <==> k in p.modules))
      && (forall k :: k != moduleId && k in p.modules ==> q.modules[k] == p.modules[k])
      && Drift(q, Questions) == Drift(p, Questions) && Drift(q, Minutes) == Drift(p, Minutes)
  {
    var r := RecordFor(p.modules, moduleId, now);
    PutSum(p.modules, moduleId, r.(questionsAsked := r.questionsAsked + 1), Questions);
    PutSum(p.modules, moduleId, r.(questionsAsked := r.questionsAsked + 1), Minutes);
  }

  /** Recording `minutes` raises the module's time and the global time by
      exactly `minutes`, changes no other module, and keeps the totals in
      step with the sums. */
  lemma TimeAccounting(p: UserProgress, moduleId: string, minutes: int, now: Time)
    ensures var q := WithTime(p, moduleId, minutes, now);
      && moduleId in q.modules
      && q.modules[moduleId].timeSpent == RecordFor(p.modules, moduleId, now).timeSpent + minutes
      && q.modules[moduleId].questionsAsked == RecordFor(p.modules, moduleId, now).questionsAsked
      && q.totalTimeSpent == p.totalTimeSpent + minutes
      && q.totalQuestionsAsked == p.totalQuestionsAsked
      && (forall k :: k != moduleId ==> (k in q.modules <==> k in p.modules))
      && (forall k :: k != moduleId && k in p.modules ==> q.modules[k] == p.modules[k])
      && Drift(q, Questions) == Drift(p, Questions) && Drift(q, Minutes) == Drift(p, Minutes)
  {
    var r := RecordFor(p.modules, moduleId, now);
    PutSum(p.modules, moduleId, r.(timeSpent := r.timeSpent + minutes), Questions);
    PutSum(p.modules, moduleId, r.(timeSpent := r.timeSpent + minutes), Minutes);
  }

  /** Module access only stamps the record; the counters and sums stay. */
  lemma AccessKeepsCounters(p: UserProgress, moduleId: string, now: Time)
    ensures var q := WithAccess(p, moduleId, now);
      && moduleId in q.modules && q.modules[moduleId].lastAccessed == now
      && q.totalQuestionsAsked == p.totalQuestionsAsked && q.totalTimeSpent == p.totalTimeSpent
      && Drift(q, Questions) == Drift(p, Questions) && Drift(q, Minutes) == Drift(p, Minutes)
  {
    PutKeepsDrift(p, moduleId, RecordFor(p.modules, moduleId, now).(lastAccessed := now), now);
  }

  // ---------------------------------------------------------------------
  // Lemmas: completed sections

  /** After `markSectionCompleted` the section is listed once, the list keeps
      its earlier entries in order, and the counters are untouched. */
  lemma SectionCompletedAdds(p: UserProgress, moduleId: string, section: string, now: Time)
    requires NoDuplicates(RecordFor(p.modules, moduleId, now).completedSections)
    ensures var q := WithSectionCompleted(p, moduleId, section, now);
      var before := RecordFor(p.modules, moduleId, now).completedSections;
      && moduleId in q.modules
      && section in q.modules[moduleId].completedSections
      && NoDuplicates(q.modules[moduleId].completedSections)
      && q.modules[moduleId].completedSections[..|before|] == before
      && |q.modules[moduleId].completedSections| <= |before| + 1
      && Drift(q, Questions) == Drift(p, Questions) && Drift(q, Minutes) == Drift(p, Minutes)
  {
    var r := RecordFor(p.modules, moduleId, now);
    if section in r.completedSections {
      PutKeepsDrift(p, moduleId, r, now);
    } else {
      PutKeepsDrift(p, moduleId, r.(completedSections := r.completedSections + [section]), now);
      assert (r.completedSections + [section])[|r.completedSections|] == section;
    }
  }

  /** A second identical `markSectionCompleted` changes nothing. */
  lemma SectionCompletedIdempotent(p: UserProgress, moduleId: string, section: string, now: Time)
    ensures var q := WithSectionCompleted(p, moduleId, section, now);
      WithSectionCompleted(q, moduleId, section, now) == q
  {
    var q := WithSectionCompleted(p, moduleId, section, now);
    var r := RecordFor(p.modules, moduleId, now);
    if section !in r.completedSections {
      assert (r.completedSections + [section])[|r.completedSections|] == section;
    }
    assert q.modules[moduleId := q.modules[moduleId]] == q.modules;
  }

  /** After `markSectionIncomplete` the section is gone, every other section
      is still listed, and the remaining ones keep their relative order. */
  lemma SectionIncompleteRemoves(p: UserProgress, moduleId: string, section: string, now: Time)
    ensures var q := WithSectionIncomplete(p, moduleId, section, now);
      var before := RecordFor(p.modules, moduleId, now).completedSections;
      && moduleId in q.modules
      && section !in q.modules[moduleId].completedSections
      && (forall x :: x != section ==> (x in q.modules[moduleId].completedSections <==> x in before))
      && (forall i :: 0 <= i <= |before| ==>
            q.modules[moduleId].completedSections
              == RemoveAll(before[..i], section) + RemoveAll(before[i..], section))
      && Drift(q, Questions) == Drift(p, Questions) && Drift(q, Minutes) == Drift(p, Minutes)
  {
    var r := RecordFor(p.modules, moduleId, now);
    var after := RemoveAll(r.completedSections, section);
    RemoveAllMembers(r.completedSections, section, section);
    forall x | x != section
      ensures x in after <==> x in r.completedSections
    {
      RemoveAllMembers(r.completedSections, section, x);
    }
    forall i | 0 <= i <= |r.completedSections|
      ensures after == RemoveAll(r.completedSections[..i], section) + RemoveAll(r.completedSections[i..], section)
    {
      RemoveAllAppend(r.completedSections[..i], r.completedSections[i..], section);
      assert r.completedSections[..i] + r.completedSections[i..] == r.completedSections;
    }
    PutKeepsDrift(p, moduleId, r.(completedSections := after), now);
  }

  // ---------------------------------------------------------------------
  // Lemmas: resets

  /** `resetModuleProgress` takes exactly the module's counters off the
      totals, so the agreement of totals and sums survives it; an absent
      module changes nothing. */
  lemma ResetModuleKeepsDrift(p: UserProgress, moduleId: string)
    ensures var q := WithoutModule(p, moduleId);
      && moduleId !in q.modules
      && (forall k :: k != moduleId ==> (k in q.modules <==> k in p.modules))
      && (forall k :: k != moduleId && k in p.modules ==> q.modules[k] == p.modules[k])
      && (moduleId !in p.modules ==> q == p)
      && Drift(q, Questions) == Drift(p, Questions) && Drift(q, Minutes) == Drift(p, Minutes)
  {
    if moduleId in p.modules {
      SumRemove(p.modules, moduleId, Questions);
      SumRemove(p.modules, moduleId, Minutes);
    }
  }

  /** `resetAllProgress` leaves no modules and zero totals, which agree. */
  lemma ResetAllIsEmpty(now: Time, hasWindow: bool)
    ensures var q := Stamp(DefaultProgress(now), hasWindow, now);
      q.modules == map[] && q.totalQuestionsAsked == 0 && q.totalTimeSpent == 0
      && Consistent(q) && WellFormed(q)
  {
  }

  /** The save stamp touches only `lastUpdated`. */
  lemma StampKeepsDrift(p: UserProgress, hasWindow: bool, now: Time)
    ensures Stamp(p, hasWindow, now).modules == p.modules
    ensures Drift(Stamp(p, hasWindow, now), Questions) == Drift(p, Questions)
    ensures Drift(Stamp(p, hasWindow, now), Minutes) == Drift(p, Minutes)
  {
  }

  // ---------------------------------------------------------------------
  // Lemmas: the score

  /** Each factor is capped at its weight, and the score lies in 0..100
      when the counts are not negative (it is never above 100 in any case). */
  lemma ScoreBounds(done: int, questions: int, minutes: int, totalSections: int)
    requires totalSections > 0
    ensures SectionFactor(done, totalSections) <= 60.0
    ensures EngagementFactor(questions) <= 30.0
    ensures TimeFactor(minutes) <= 10.0
    ensures ModuleScore(done, questions, minutes, totalSections) <= 100
    ensures done >= 0 && questions >= 0 && minutes >= 0 ==>
      0 <= ModuleScore(done, questions, minutes, totalSections)
  {
    if done >= 0 {
      assert done as real / totalSections as real >= 0.0;
    }
  }

  lemma DivMonotone(a: real, b: real, d: real)
    requires a <= b && d > 0.0
    ensures a / d <= b / d
  {
    assert b / d - a / d == (b - a) / d;
  }

  /** The score never drops when any one count grows. */
  lemma ScoreMonotone(done: int, questions: int, minutes: int,
                      done': int, questions': int, minutes': int, totalSections: int)
    requires totalSections > 0
    requires done <= done' && questions <= questions' && minutes <= minutes'
    ensures ModuleScore(done, questions, minutes, totalSections)
         <= ModuleScore(done', questions', minutes', totalSections)
  {
    DivMonotone(done as real, done' as real, totalSections as real);
    var s := SectionFactor(done, totalSections) + EngagementFactor(questions) + TimeFactor(minutes);
    var s' := SectionFactor(done', totalSections) + EngagementFactor(questions') + TimeFactor(minutes');
    assert s <= s';
    RoundMonotone(s, s');
  }

  /** Three questions and nothing else score 9. */
  lemma ScoreThreeQuestions()
    ensures ModuleScore(0, 3, 0, 4) == 9
  {
    assert SectionFactor(0, 4) + EngagementFactor(3) + TimeFactor(0) == 9.0;
  }

  /** All sections, ten questions and thirty minutes score the full 100. */
  lemma ScoreFull(done: int, questions: int, minutes: int, totalSections: int)
    requires totalSections > 0 && done >= totalSections && questions >= 10 && minutes >= 30
    ensures ModuleScore(done, questions, minutes, totalSections) == 100
  {
    assert done as real / totalSections as real >= 1.0;
  }

  /** `calculateModuleProgress` only ever sets `completed`, exactly when the
      score reaches 80, and changes no counter, section or total. */
  lemma CompletionCheckMonotone(p: UserProgress, moduleId: string, now: Time, totalSections: int)
    requires totalSections > 0
    ensures var q := WithCompletionCheck(p, moduleId, now, totalSections);
      var r := RecordFor(p.modules, moduleId, now);
      && moduleId in q.modules
      && q.modules[moduleId] == r.(completed := r.completed || RecordScore(r, totalSections) >= 80)
      && (r.completed ==> q.modules[moduleId].completed)
      && q.totalQuestionsAsked == p.totalQuestionsAsked && q.totalTimeSpent == p.totalTimeSpent
      && Drift(q, Questions) == Drift(p, Questions) && Drift(q, Minutes) == Drift(p, Minutes)
  {
    var r := RecordFor(p.modules, moduleId, now);
    PutKeepsDrift(p, moduleId, r.(completed := true), now);
    PutKeepsDrift(p, moduleId, r, now);
  }

  // ---------------------------------------------------------------------
  // Lemmas: well-formed records

  /** A record keyed by its own id, free of duplicate sections and with
      non-negative counters may be written into a well-formed store. */
  lemma PutKeepsWellFormed(p: UserProgress, moduleId: string, r: ModuleProgress)
    requires WellFormed(p)
    requires r.moduleId == moduleId && NoDuplicates(r.completedSections)
    requires r.questionsAsked >= 0 && r.timeSpent >= 0
    ensures WellFormed(Put(p, moduleId, r))
  {
  }

  /** The operations that bump a counter or a time stamp keep records keyed
      by their own id, sections free of duplicates, and counters
      non-negative (the time operation when it is given non-negative
      minutes). */
  lemma CountersKeepWellFormed(p: UserProgress, moduleId: string, minutes: int, now: Time)
    requires WellFormed(p)
    ensures WellFormed(Touch(p, moduleId, now))
    ensures WellFormed(WithAccess(p, moduleId, now))
    ensures WellFormed(WithQuestion(p, moduleId, now))
    ensures minutes >= 0 ==> WellFormed(WithTime(p, moduleId, minutes, now))
  {
    var r := RecordFor(p.modules, moduleId, now);
    assert r.moduleId == moduleId && NoDuplicates(r.completedSections);
    PutKeepsWellFormed(p, moduleId, r);
    PutKeepsWellFormed(p, moduleId, r.(lastAccessed := now));
    PutKeepsWellFormed(p, moduleId, r.(questionsAsked := r.questionsAsked + 1));
    if minutes >= 0 {
      PutKeepsWellFormed(p, moduleId, r.(timeSpent := r.timeSpent + minutes));
    }
  }

  /** Marking a section complete or incomplete keeps the store well formed:
      a section is added only when absent and removed everywhere. */
  lemma SectionsKeepWellFormed(p: UserProgress, moduleId: string, section: string, now: Time)
    requires WellFormed(p)
    ensures WellFormed(WithSectionCompleted(p, moduleId, section, now))
    ensures WellFormed(WithSectionIncomplete(p, moduleId, section, now))
  {
    var r := RecordFor(p.modules, moduleId, now);
    assert r.moduleId == moduleId && NoDuplicates(r.completedSections);
    SectionCompletedAdds(p, moduleId, section, now);
    if section !in r.completedSections {
      PutKeepsWellFormed(p, moduleId, r.(completedSections := r.completedSections + [section]));
    }
    RemoveAllNoDuplicates(r.completedSections, section);
    PutKeepsWellFormed(p, moduleId, r.(completedSections := RemoveAll(r.completedSections, section)));
  }

  /** Resetting one module keeps the store well formed. */
  lemma ResetKeepsWellFormed(p: UserProgress, moduleId: string)
    requires WellFormed(p)
    ensures WellFormed(WithoutModule(p, moduleId))
  {
  }

  /** The completion check keeps the store well formed. */
  lemma CompletionKeepsWellFormed(p: UserProgress, moduleId: string, now: Time, totalSections: int)
    requires WellFormed(p) && totalSections > 0
    ensures WellFormed(WithCompletionCheck(p, moduleId, now, totalSections))
  {
    var r := RecordFor(p.modules, moduleId, now);
    assert r.moduleId == moduleId && NoDuplicates(r.completedSections);
    PutKeepsWellFormed(p, moduleId, r.(completed := true));
  }

  // ---------------------------------------------------------------------
  // Lemmas: persistence

  /** What `saveProgress` writes, `loadProgress` reads back unchanged,
      provided no module holds an invalid date: that one is written as
      `null`, and the load leaves the `null` in place. */
  lemma LoadAfterSave(p: UserProgress, now: Time)
    requires p.lastUpdated.Instant?
    requires forall k :: k in p.modules ==> !p.modules[k].lastAccessed.InvalidDate?
    ensures Loadable(Saved(Serialize(p)))
    ensures LoadProgress(true, Saved(Serialize(p)), now) == p
  {
    var q := LoadProgress(true, Saved(Serialize(p)), now);
    assert q.modules == p.modules;
  }

  /** A missing, unparseable or wrongly shaped value loads as the empty store. */
  lemma LoadFallback(hasWindow: bool, stored: Stored, now: Time)
    requires Loadable(stored)
    requires !hasWindow || !stored.Saved? || !LoadShapeOk(stored.payload)
    ensures LoadProgress(hasWindow, stored, now) == DefaultProgress(now)
    ensures Consistent(LoadProgress(hasWindow, stored, now))
  {
  }

  /** Export then import keeps every module id, record and counter, and
      sends each date field through `JSON.stringify` and `new Date`: a
      valid instant comes back, an invalid or `null` date comes back as
      the epoch, and a missing module date as an invalid date. */
  lemma ImportedDates(p: UserProgress)
    ensures ImportShapeOk(Serialize(p)) && Serialize(p).totalTimeSpent.Some?
    ensures var q := Imported(Serialize(p));
      && q.modules.Keys == p.modules.Keys
      && q.totalQuestionsAsked == p.totalQuestionsAsked
      && q.totalTimeSpent == p.totalTimeSpent
      && (forall k :: k in p.modules ==>
            q.modules[k] == p.modules[k].(lastAccessed := q.modules[k].lastAccessed))
      && (forall k :: k in p.modules && p.modules[k].lastAccessed.Instant? ==>
            q.modules[k].lastAccessed == p.modules[k].lastAccessed)
      && (forall k :: k in p.modules && (p.modules[k].lastAccessed.InvalidDate? || p.modules[k].lastAccessed.NullDate?) ==>
            q.modules[k].lastAccessed == Instant(0))
      && (forall k :: k in p.modules && p.modules[k].lastAccessed.Undefined? ==>
            q.modules[k].lastAccessed == InvalidDate)
      && (p.lastUpdated.Instant? ==> q.lastUpdated == p.lastUpdated)
      && (p.lastUpdated.InvalidDate? ==> q.lastUpdated == Instant(0))
  {
  }

  /** An exported store whose dates are all valid instants is accepted by
      import and comes back as it was, up to the time stamp the import's
      save writes. */
  lemma ImportAfterExport(p: UserProgress, hasWindow: bool, now: Time)
    requires hasWindow || p.lastUpdated.Instant?
    requires forall k :: k in p.modules ==> p.modules[k].lastAccessed.Instant?
    ensures ImportShapeOk(Serialize(p)) && Serialize(p).totalTimeSpent.Some?
    ensures Stamp(Imported(Serialize(p)), hasWindow, now) == Stamp(p, hasWindow, now)
  {
    var q := Imported(Serialize(p));
    assert q.modules == p.modules;
  }

  // ---------------------------------------------------------------------
  // The service

  class ProgressService {
    /** `typeof window !== 'undefined'`: whether browser storage exists. */
    const hasWindow: bool
    var progress: UserProgress
    var storage: Stored

    /** The storage after `saveProgress` wrote the store `p`. */
    function AfterSave(p: UserProgress): Stored
      reads this
    {
      if hasWindow then Saved(Serialize(p)) else storage
    }

    /** `new ProgressService()`: load, and clear a slot that does not parse. */
    constructor (hasWindow: bool, stored: Stored, now: Time)
      requires Loadable(stored)
      ensures this.hasWindow == hasWindow
      ensures progress == LoadProgress(hasWindow, stored, now)
      ensures storage == if hasWindow && stored.Unparseable? then Missing else stored
    {
      this.hasWindow := hasWindow;
      progress := LoadProgress(hasWindow, stored, now);
      storage := if hasWindow && stored.Unparseable? then Missing else stored;
    }

    method SaveProgress(now: Time)
      modifies this
      ensures progress == Stamp(old(progress), hasWindow, now)
      ensures storage == old(AfterSave(Stamp(progress, hasWindow, now)))
    {
      if hasWindow {
        progress := progress.(lastUpdated := now);
        storage := Saved(Serialize(progress));
      }
    }

    /** `getModuleProgress`: the module's record, created on first use (not saved). */
    method GetModuleProgress(moduleId: string, now: Time) returns (r: ModuleProgress)
      modifies this
      ensures r == RecordFor(old(progress.modules), moduleId, now)
      ensures progress == Touch(old(progress), moduleId, now)
      ensures storage == old(storage)
    {
      if moduleId !in progress.modules {
        progress := progress.(modules := progress.modules[moduleId := NewRecord(moduleId, now)]);
      }
      r := progress.modules[moduleId];
    }

    method RecordModuleAccess(moduleId: string, now: Time)
      modifies this
      ensures progress == Stamp(WithAccess(old(progress), moduleId, now), hasWindow, now)
      ensures storage == old(AfterSave(Stamp(WithAccess(progress, moduleId, now), hasWindow, now)))
    {
      var r := GetModuleProgress(moduleId, now);
      progress := Put(progress, moduleId, r.(lastAccessed := now));
      SaveProgress(now);
    }

    method RecordQuestionAsked(moduleId: string, now: Time)
      modifies this
      ensures progress == Stamp(WithQuestion(old(progress), moduleId, now), hasWindow, now)
      ensures storage == old(AfterSave(Stamp(WithQuestion(progress, moduleId, now), hasWindow, now)))
    {
      var r := GetModuleProgress(moduleId, now);
      progress := Put(progress, moduleId, r.(questionsAsked := r.questionsAsked + 1));
      progress := progress.(totalQuestionsAsked := progress.totalQuestionsAsked + 1);
      SaveProgress(now);
    }

    method RecordTimeSpent(moduleId: string, minutes: int, now: Time)
      modifies this
      ensures progress == Stamp(WithTime(old(progress), moduleId, minutes, now), hasWindow, now)
      ensures storage == old(AfterSave(Stamp(WithTime(progress, moduleId, minutes, now), hasWindow, now)))
    {
      var r := GetModuleProgress(moduleId, now);
      progress := Put(progress, moduleId, r.(timeSpent := r.timeSpent + minutes));
      progress := progress.(totalTimeSpent := progress.totalTimeSpent + minutes);
      SaveProgress(now);
    }

    /** Saves only when the section was not already listed. */
    method MarkSectionCompleted(moduleId: string, section: string, now: Time)
      modifies this
      ensures var added := section !in RecordFor(old(progress.modules), moduleId, now).completedSections;
        && progress == (if added then Stamp(WithSectionCompleted(old(progress), moduleId, section, now), hasWindow, now)
                        else WithSectionCompleted(old(progress), moduleId, section, now))
        && storage == (if added then old(AfterSave(Stamp(WithSectionCompleted(progress, moduleId, section, now), hasWindow, now)))
                       else old(storage))
    {
      var r := GetModuleProgress(moduleId, now);
      if section !in r.completedSections {
        progress := Put(progress, moduleId, r.(completedSections := r.completedSections + [section]));
        SaveProgress(now);
      }
    }

    method MarkSectionIncomplete(moduleId: string, section: string, now: Time)
      modifies this
      ensures progress == Stamp(WithSectionIncomplete(old(progress), moduleId, section, now), hasWindow, now)
      ensures storage == old(AfterSave(Stamp(WithSectionIncomplete(progress, moduleId, section, now), hasWindow, now)))
    {
      var r := GetModuleProgress(moduleId, now);
      progress := Put(progress, moduleId, r.(completedSections := RemoveAll(r.completedSections, section)));
      SaveProgress(now);
    }

    /** The score of the module; a score of 80 or more marks it completed and saves. */
    method CalculateModuleProgress(moduleId: string, now: Time, totalSections: int) returns (score: int)
      requires totalSections > 0
      modifies this
      ensures score == RecordScore(RecordFor(old(progress.modules), moduleId, now), totalSections)
      ensures progress == if score >= 80 then Stamp(WithCompletionCheck(old(progress), moduleId, now, totalSections), hasWindow, now)
                          else WithCompletionCheck(old(progress), moduleId, now, totalSections)
      ensures storage == if score >= 80 then old(AfterSave(Stamp(WithCompletionCheck(progress, moduleId, now, totalSections), hasWindow, now)))
                         else old(storage)
    {
      var r := GetModuleProgress(moduleId, now);
      score := RecordScore(r, totalSections);
      if score >= 80 {
        progress := Put(progress, moduleId, r.(completed := true));
        SaveProgress(now);
      }
    }

    /** `getModuleProgressData`. */
    method GetModuleProgressData(moduleId: string, now: Time) returns (r: ModuleProgress)
      modifies this
      ensures r == RecordFor(old(progress.modules), moduleId, now)
      ensures progress == Touch(old(progress), moduleId, now) && storage == old(storage)
    {
      r := GetModuleProgress(moduleId, now);
    }

    /** `isSectionCompleted`: a read that still creates the record. */
    method IsSectionCompleted(moduleId: string, section: string, now: Time) returns (b: bool)
      modifies this
      ensures b <==> section in RecordFor(old(progress.modules), moduleId, now).completedSections
      ensures progress == Touch(old(progress), moduleId, now) && storage == old(storage)
    {
      var r := GetModuleProgress(moduleId, now);
      b := section in r.completedSections;
    }

    /** `getCompletedSections`: a copy of the list, creating the record. */
    method GetCompletedSections(moduleId: string, now: Time) returns (sections: seq<string>)
      modifies this
      ensures sections == RecordFor(old(progress.modules), moduleId, now).completedSections
      ensures progress == Touch(old(progress), moduleId, now) && storage == old(storage)
    {
      var r := GetModuleProgress(moduleId, now);
      sections := r.completedSections;
    }

    /** `getAllProgress`: a shallow copy of the store. */
    function GetAllProgress(): (p: UserProgress)
      reads this
      ensures p == progress
    {
      progress
    }

    method ResetModuleProgress(moduleId: string, now: Time)
      modifies this
      ensures moduleId !in old(progress.modules) ==> progress == old(progress) && storage == old(storage)
      ensures moduleId in old(progress.modules) ==>
        && progress == Stamp(WithoutModule(old(progress), moduleId), hasWindow, now)
        && storage == old(AfterSave(Stamp(WithoutModule(progress, moduleId), hasWindow, now)))
    {
      if moduleId in progress.modules {
        progress := WithoutModule(progress, moduleId);
        SaveProgress(now);
      }
    }

    method ResetAllProgress(now: Time)
      modifies this
      ensures progress == Stamp(DefaultProgress(now), hasWindow, now)
      ensures storage == old(AfterSave(Stamp(DefaultProgress(now), hasWindow, now)))
    {
      progress := DefaultProgress(now);
      SaveProgress(now);
    }

    /** `exportProgress`: the serialised store, which import always accepts. */
    function ExportProgress(): (payload: Payload)
      reads this
      ensures ImportShapeOk(payload) && payload.totalTimeSpent.Some?
      ensures payload.modules.value.Keys == progress.modules.Keys
      ensures payload.totalQuestionsAsked == Some(progress.totalQuestionsAsked)
      ensures payload.totalTimeSpent == Some(progress.totalTimeSpent)
      ensures (forall k :: k in progress.modules ==> progress.modules[k].lastAccessed.Instant?) ==>
                Imported(payload).modules == progress.modules
    {
      Serialize(progress)
    }

    /** `importProgress`: `parsed` is None when `JSON.parse` throws. A payload
        failing the shape check is refused and nothing changes. */
    method ImportProgress(parsed: Option<Payload>, now: Time) returns (ok: bool)
      requires parsed.Some? && ImportShapeOk(parsed.value) ==> parsed.value.totalTimeSpent.Some?
      modifies this
      ensures ok <==> parsed.Some? && ImportShapeOk(parsed.value)
      ensures !ok ==> progress == old(progress) && storage == old(storage)
      ensures ok ==> progress == Stamp(Imported(parsed.value), hasWindow, now)
                     && storage == old(AfterSave(Stamp(Imported(parsed.value), hasWindow, now)))
    {
      ok := false;
      if parsed.Some? && ImportShapeOk(parsed.value) {
        progress := Imported(parsed.value);
        SaveProgress(now);
        ok := true;
      }
    }
  }

  /** A fresh store, three questions in one module and nothing else: the
      module scores 9 and is not marked completed. */
  method ThreeQuestionsScenario(now: Time) returns (score: int, completed: bool)
    ensures score == 9 && !completed
  {
    var service := new ProgressService(true, Missing, now);
    service.RecordQuestionAsked("budgeting", now);
    service.RecordQuestionAsked("budgeting", now);
    service.RecordQuestionAsked("budgeting", now);
    score := service.CalculateModuleProgress("budgeting", now, 4);
    var r := service.GetModuleProgressData("budgeting", now);
    completed := r.completed;
    ScoreThreeQuestions();
  }
}
