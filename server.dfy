/**
 * The SourceSpace API (backend/server.py) with MongoDB, the HTTP client and
 * the clock made into parameters: a collection is the sequence of its
 * documents, a timestamp is an integer number of seconds, and the Gemini
 * call is the reply it produced.
 */
module Server {
  import opened Wrappers
  import opened Text

  // --------------------------------------------------------------- records

  datatype JournalEntry = JournalEntry(
    entryId: string, userId: string, title: string, content: string, mood: int, date: int)

  datatype HabitEntry = HabitEntry(
    habitId: string, userId: string, habitName: string, completed: bool, date: int)

  datatype AIInsight = AIInsight(
    insightId: string, userId: string, content: string, insightType: string, generatedAt: int)

  // The sort and filter keys of each collection.
  function JournalOwner(e: JournalEntry): string { e.userId }
  function JournalDate(e: JournalEntry): int { e.date }
  function HabitOwner(h: HabitEntry): string { h.userId }
  function HabitDate(h: HabitEntry): int { h.date }
  function InsightOwner(a: AIInsight): string { a.userId }
  function InsightDate(a: AIInsight): int { a.generatedAt }

  // ------------------------------------------------------------ list query

  /**
   * The elements of `s` that satisfy `p`, in order: each one satisfies `p`,
   * and every element satisfying `p` is kept as often as it occurs in `s`.
   */
  function Filter<T(!new)>(s: seq<T>, p: T -> bool): (r: seq<T>)
    ensures |r| <= |s|
    ensures forall i :: 0 <= i < |r| ==> p(r[i]) && r[i] in s
    ensures forall x :: multiset(r)[x] == if p(x) then multiset(s)[x] else 0
  {
    if s == [] then []
    else
      assert s == [s[0]] + s[1..];
      if p(s[0]) then [s[0]] + Filter(s[1..], p) else Filter(s[1..], p)
  }

  /** The query filter `{"user_id": user_id}`: exactly the documents `userId` owns. */
  function OwnedBy<T(!new)>(docs: seq<T>, owner: T -> string, userId: string): (r: seq<T>)
    ensures |r| <= |docs|
    ensures forall i :: 0 <= i < |r| ==> owner(r[i]) == userId
    ensures forall x :: multiset(r)[x] == if owner(x) == userId then multiset(docs)[x] else 0
  {
    Filter(docs, (x: T) => owner(x) == userId)
  }

  function Min(a: nat, b: nat): nat {
    if a <= b then a else b
  }

  /**
   * `r` is what `find({"user_id": userId}).sort(key, -1).limit(limit)`
   * returns: only the user's documents, newest first, as many as the limit
   * allows, and none of the user's documents left out is newer than any
   * returned one. Documents with equal stamps may come in any order.
   */
  ghost predicate IsNewestFirst<T(!new)>(docs: seq<T>, owner: T -> string, stamp: T -> int,
                                   userId: string, limit: nat, r: seq<T>)
  {
    var owned := OwnedBy(docs, owner, userId);
    multiset(r) <= multiset(owned)
    && (forall i :: 0 <= i < |r| ==> owner(r[i]) == userId)
    && (forall i, j :: 0 <= i < j < |r| ==> stamp(r[i]) >= stamp(r[j]))
    && |r| == Min(limit, |owned|)
    && (forall x, i :: x in multiset(owned) - multiset(r) && 0 <= i < |r| ==> stamp(x) <= stamp(r[i]))
  }

  /** The position of a newest document of a non-empty sequence. */
  method IndexOfNewest<T>(s: seq<T>, stamp: T -> int) returns (m: nat)
    requires s != []
    ensures m < |s|
    ensures forall i :: 0 <= i < |s| ==> stamp(s[i]) <= stamp(s[m])
  {
    m := 0;
    var i := 1;
    while i < |s|
      invariant 1 <= i <= |s| && m < i
      invariant forall k :: 0 <= k < i ==> stamp(s[k]) <= stamp(s[m])
    {
      if stamp(s[i]) > stamp(s[m]) {
        m := i;
      }
      i := i + 1;
    }
  }

  /**
   * The state of the selection below: `r` holds the newest documents taken
   * so far in order, `rest` the ones not taken yet, none newer than any taken.
   */
  ghost predicate Selecting<T(!new)>(owned: seq<T>, owner: T -> string, stamp: T -> int, userId: string,
                                     r: seq<T>, rest: seq<T>)
  {
    multiset(r) + multiset(rest) == multiset(owned)
    && |r| + |rest| == |owned|
    && (forall i :: 0 <= i < |r| ==> owner(r[i]) == userId)
    && (forall i, j :: 0 <= i < j < |r| ==> stamp(r[i]) >= stamp(r[j]))
    && (forall k, i :: 0 <= k < |rest| && 0 <= i < |r| ==> stamp(rest[k]) <= stamp(r[i]))
  }

  /** The shared shape of every listing query: filter by user, sort newest first, limit. */
  method FindNewest<T(!new)>(docs: seq<T>, owner: T -> string, stamp: T -> int, userId: string, limit: nat)
    returns (r: seq<T>)
    ensures IsNewestFirst(docs, owner, stamp, userId, limit, r)
  {
    var owned := OwnedBy(docs, owner, userId);
    var rest := owned;
    r := [];
    while |r| < limit && rest != []
      invariant Selecting(owned, owner, stamp, userId, r, rest)
      invariant |r| <= limit
      decreases |rest|
    {
      var m := IndexOfNewest(rest, stamp);
      TakeNewest(owned, owner, stamp, userId, r, rest, m);
      r := r + [rest[m]];
      rest := rest[..m] + rest[m + 1..];
    }
    SelectionDone(docs, owner, stamp, userId, limit, r, rest);
  }

  /** A selection that stopped at the limit or ran out of documents is the query's answer. */
  lemma SelectionDone<T(!new)>(docs: seq<T>, owner: T -> string, stamp: T -> int, userId: string,
                               limit: nat, r: seq<T>, rest: seq<T>)
    requires Selecting(OwnedBy(docs, owner, userId), owner, stamp, userId, r, rest)
    requires |r| <= limit && (|r| == limit || rest == [])
    ensures IsNewestFirst(docs, owner, stamp, userId, limit, r)
  {
    NewestFirstAtEnd(OwnedBy(docs, owner, userId), r, rest, stamp);
  }

  /** Moving a newest remaining document to the end of `r` keeps the selection state. */
  lemma TakeNewest<T(!new)>(owned: seq<T>, owner: T -> string, stamp: T -> int, userId: string,
                            r: seq<T>, rest: seq<T>, m: nat)
    requires Selecting(owned, owner, stamp, userId, r, rest)
    requires forall i :: 0 <= i < |owned| ==> owner(owned[i]) == userId
    requires m < |rest| && forall k :: 0 <= k < |rest| ==> stamp(rest[k]) <= stamp(rest[m])
    ensures Selecting(owned, owner, stamp, userId, r + [rest[m]], rest[..m] + rest[m + 1..])
  {
    var x := rest[m];
    var rest' := rest[..m] + rest[m + 1..];
    var r' := r + [x];
    RemoveAt(rest, m);
    assert multiset(r') + multiset(rest') == multiset(owned);
    assert x in multiset(owned);
    assert owner(x) == userId by {
      var k :| 0 <= k < |owned| && owned[k] == x;
    }
    forall k, i | 0 <= k < |rest'| && 0 <= i < |r'| ensures stamp(rest'[k]) <= stamp(r'[i]) {
      var j := if k < m then k else k + 1;
      assert rest'[k] == rest[j];
    }
  }

  /** Taking out the element at `m` takes one copy of it out of the multiset. */
  lemma RemoveAt<T>(s: seq<T>, m: nat)
    requires m < |s|
    ensures multiset(s[..m] + s[m + 1..]) + multiset{s[m]} == multiset(s)
  {
    assert s == s[..m] + [s[m]] + s[m + 1..];
  }

  /** Whatever was never taken is no newer than anything taken. */
  lemma NewestFirstAtEnd<T>(owned: seq<T>, r: seq<T>, rest: seq<T>, stamp: T -> int)
    requires multiset(r) + multiset(rest) == multiset(owned)
    requires forall k, i :: 0 <= k < |rest| && 0 <= i < |r| ==> stamp(rest[k]) <= stamp(r[i])
    ensures multiset(r) <= multiset(owned)
    ensures forall x, i :: x in multiset(owned) - multiset(r) && 0 <= i < |r| ==> stamp(x) <= stamp(r[i])
  {
    assert multiset(owned) - multiset(r) == multiset(rest);
    forall x, i | x in multiset(owned) - multiset(r) && 0 <= i < |r| ensures stamp(x) <= stamp(r[i]) {
      var k :| 0 <= k < |rest| && rest[k] == x;
    }
  }

  const JournalListLimit: nat := 10
  const HabitListLength: nat := 50
  const InsightListLimit: nat := 5
  const ContextEntries: nat := 3
  const ContextHabits: nat := 5

  /** `GET /api/journal/{user_id}`: the user's entries, newest `date` first, at most `limit` (10 by default). */
  method GetJournalEntries(journal: seq<JournalEntry>, userId: string, limit: nat := JournalListLimit)
    returns (r: seq<JournalEntry>)
    ensures IsNewestFirst(journal, JournalOwner, JournalDate, userId, limit, r)
  {
    r := FindNewest(journal, JournalOwner, JournalDate, userId, limit);
  }

  /** `GET /api/habits/{user_id}`: the user's habit records, newest `date` first, at most 50. */
  method GetHabits(habits: seq<HabitEntry>, userId: string) returns (r: seq<HabitEntry>)
    ensures IsNewestFirst(habits, HabitOwner, HabitDate, userId, HabitListLength, r)
  {
    r := FindNewest(habits, HabitOwner, HabitDate, userId, HabitListLength);
  }

  /** `GET /api/insights/{user_id}`: the user's insights, newest `generated_at` first, at most `limit` (5 by default). */
  method GetInsights(insights: seq<AIInsight>, userId: string, limit: nat := InsightListLimit)
    returns (r: seq<AIInsight>)
    ensures IsNewestFirst(insights, InsightOwner, InsightDate, userId, limit, r)
  {
    r := FindNewest(insights, InsightOwner, InsightDate, userId, limit);
  }

  // -------------------------------------------------------- insight prompt

  const ContextHeader: string := "Based on the user's recent activity:\n"
  const EntriesHeading: string := "Recent journal entries:\n"
  const StorySuffix: string :=
    "\nCreate an inspiring sci-fi story that reflects their journey and motivates continued growth."
  const AnalysisSuffix: string :=
    "\nProvide insightful analysis with cosmic perspective on their progress and patterns."
  const NewStoryPrompt: string :=
    "Create an inspiring sci-fi story about beginning a new journey in the cosmos of productivity."
  const NewAnalysisPrompt: string :=
    "Provide motivation for starting a new productivity journey in the galaxy of self-improvement."

  /** How many characters of an entry's content the prompt quotes. */
  const ContentPreview: nat := 100

  /**
   * One prompt line per journal entry: the title, at most the first 100
   * characters of the content (all of it when shorter), and the mood.
   */
  function EntryLine(e: JournalEntry): (line: string)
    ensures exists preview :: preview <= e.content && |preview| <= ContentPreview
              && (|e.content| <= ContentPreview ==> preview == e.content)
              && (|e.content| > ContentPreview ==> |preview| == ContentPreview)
              && line == "- " + e.title + ": " + preview + "... (Mood: " + IntToString(e.mood) + "/10)\n"
  {
    "- " + e.title + ": " + Take(e.content, ContentPreview) + "... (Mood: " + IntToString(e.mood) + "/10)\n"
  }

  /** The lines `line` gives the elements of `xs`, concatenated in order. */
  function Lines<T>(xs: seq<T>, line: T -> string): string {
    if xs == [] then ""
    else Lines(xs[..|xs| - 1], line) + line(xs[|xs| - 1])
  }

  /** The entry lines of `entries`, in order. */
  function EntryLines(entries: seq<JournalEntry>): string {
    Lines(entries, EntryLine)
  }

  /** `[h for h in recent_habits if h['completed']]`. */
  function CompletedHabits(habits: seq<HabitEntry>): (r: seq<HabitEntry>)
    ensures |r| <= |habits|
    ensures forall i :: 0 <= i < |r| ==> r[i].completed
    ensures forall x :: multiset(r)[x] == if x.completed then multiset(habits)[x] else 0
  {
    Filter(habits, IsCompleted)
  }

  predicate IsCompleted(h: HabitEntry) {
    h.completed
  }

  /** The habit line: the completed count and the habit count, each as a decimal numeral. */
  function HabitSummary(habits: seq<HabitEntry>): (line: string)
    ensures exists done, total :: IsDecimalOf(done, |CompletedHabits(habits)|) && IsDecimalOf(total, |habits|)
              && line == "\nCompleted " + done + " out of " + total + " recent habits.\n"
  {
    var done, total := NatToString(|CompletedHabits(habits)|), NatToString(|habits|);
    NatToStringRoundTrip(|CompletedHabits(habits)|);
    NatToStringRoundTrip(|habits|);
    assert IsDecimalOf(done, |CompletedHabits(habits)|) && IsDecimalOf(total, |habits|);
    "\nCompleted " + done + " out of " + total + " recent habits.\n"
  }

  /** The `context` string before the closing instruction. */
  function ActivityContext(entries: seq<JournalEntry>, habits: seq<HabitEntry>): (c: string)
    ensures ContextHeader <= c
    ensures entries != [] ==> ContextHeader + EntriesHeading + EntryLines(entries) <= c
    ensures habits != [] ==> EndsWith(c, HabitSummary(habits))
    ensures entries == [] && habits == [] ==> c == ContextHeader
    ensures |c| == |ContextHeader| + (if entries != [] then |EntriesHeading| + |EntryLines(entries)| else 0)
                   + (if habits != [] then |HabitSummary(habits)| else 0)
  {
    var middle := if entries != [] then EntriesHeading + EntryLines(entries) else "";
    var tail := if habits != [] then HabitSummary(habits) else "";
    PrefixAndSuffix(ContextHeader + middle, tail);
    PrefixAndSuffix(ContextHeader, middle + tail);
    AppendAssociative(ContextHeader, middle, tail);
    if entries != [] then
      AppendAssociative(ContextHeader, EntriesHeading, EntryLines(entries));
      ContextHeader + middle + tail
    else ContextHeader + middle + tail
  }

  /** `s` ends with `suffix`. */
  predicate EndsWith(s: string, suffix: string) {
    |suffix| <= |s| && s[|s| - |suffix|..] == suffix
  }

  /** The prompt `generate_insight` builds from the recent entries and habits. */
  function InsightPrompt(entries: seq<JournalEntry>, habits: seq<HabitEntry>, insightType: string): (p: string)
    ensures entries == [] && habits == [] ==>
              p == if insightType == "story" then NewStoryPrompt else NewAnalysisPrompt
    ensures entries != [] || habits != [] ==>
              ActivityContext(entries, habits) <= p
              && EndsWith(p, if insightType == "story" then StorySuffix else AnalysisSuffix)
              && |p| == |ActivityContext(entries, habits)|
                        + |if insightType == "story" then StorySuffix else AnalysisSuffix|
  {
    if entries != [] || habits != [] then
      var suffix := if insightType == "story" then StorySuffix else AnalysisSuffix;
      PrefixAndSuffix(ActivityContext(entries, habits), suffix);
      ActivityContext(entries, habits) + suffix
    else if insightType == "story" then NewStoryPrompt
    else NewAnalysisPrompt
  }

  /** The prompt assembly as the handler runs it, appending to `context` entry by entry. */
  method BuildPrompt(entries: seq<JournalEntry>, habits: seq<HabitEntry>, insightType: string)
    returns (prompt: string)
    ensures prompt == InsightPrompt(entries, habits, insightType)
  {
    if entries != [] || habits != [] {
      var context := ContextHeader;
      if entries != [] {
        context := context + EntriesHeading;
        ghost var head := context;
        var i := 0;
        while i < |entries|
          invariant 0 <= i <= |entries|
          invariant context == head + EntryLines(entries[..i])
        {
          assert entries[..i + 1][..i] == entries[..i];
          AppendAssociative(head, EntryLines(entries[..i]), EntryLine(entries[i]));
          context := context + EntryLine(entries[i]);
          i := i + 1;
        }
        assert entries[..i] == entries;
        AppendAssociative(ContextHeader, EntriesHeading, EntryLines(entries));
      }
      assert context == ContextHeader + (if entries != [] then EntriesHeading + EntryLines(entries) else "");
      if habits != [] {
        context := context + HabitSummary(habits);
      }
      assert context == ActivityContext(entries, habits);
      if insightType == "story" {
        prompt := context + StorySuffix;
      } else {
        prompt := context + AnalysisSuffix;
      }
    } else if insightType == "story" {
      prompt := NewStoryPrompt;
    } else {
      prompt := NewAnalysisPrompt;
    }
  }

  lemma AppendAssociative(a: string, b: string, c: string)
    ensures (a + b) + c == a + (b + c)
  {
  }

  /** Lines distribute over concatenation: each element's line comes in the element's place. */
  lemma {:induction false} LinesAppend<T>(a: seq<T>, b: seq<T>, line: T -> string)
    ensures Lines(a + b, line) == Lines(a, line) + Lines(b, line)
    decreases |b|
  {
    if b == [] {
      assert a + b == a;
    } else {
      var b' := b[..|b| - 1];
      assert (a + b)[..|a + b| - 1] == a + b';
      LinesAppend(a, b', line);
    }
  }

  /** The line of entry `i` sits between the lines of the entries before it and after it. */
  lemma EntryLineInPlace(entries: seq<JournalEntry>, i: nat)
    requires i < |entries|
    ensures EntryLines(entries)
            == EntryLines(entries[..i]) + EntryLine(entries[i]) + EntryLines(entries[i + 1..])
  {
    assert entries == entries[..i] + [entries[i]] + entries[i + 1..];
    LinesAppend(entries[..i] + [entries[i]], entries[i + 1..], EntryLine);
    LinesAppend(entries[..i], [entries[i]], EntryLine);
    assert [entries[i]][..0] == [];
  }

  /** `a` is a prefix and `b` a suffix of `a + b`. */
  lemma PrefixAndSuffix(a: string, b: string)
    ensures a <= a + b
    ensures (a + b)[|a|..] == b
  {
  }

  /** The count of completed habits never exceeds the count of recent habits. */
  lemma {:induction false} CompletedCountBounded(habits: seq<HabitEntry>)
    ensures |CompletedHabits(habits)| <= |habits|
    ensures |CompletedHabits(habits)| == |habits| <==> forall i :: 0 <= i < |habits| ==> habits[i].completed
  {
    if habits != [] {
      var t := habits[1..];
      CompletedCountBounded(t);
      if habits[0].completed {
        if forall i :: 0 <= i < |t| ==> t[i].completed {
          forall i | 0 <= i < |habits| ensures habits[i].completed {
            if i > 0 { assert habits[i] == t[i - 1]; }
          }
        } else {
          var k :| 0 <= k < |t| && !t[k].completed;
          assert habits[k + 1] == t[k];
        }
      }
    }
  }

  lemma {:induction false} AllCompletedKept(habits: seq<HabitEntry>)
    requires forall i :: 0 <= i < |habits| ==> habits[i].completed
    ensures CompletedHabits(habits) == habits
  {
    if habits != [] {
      AllCompletedKept(habits[1..]);
    }
  }

  // ------------------------------------------------------- Gemini response

  /** A JSON value as `response.json()` yields it (numbers reduced to integers). */
  datatype Json =
    | JNull
    | JBool(b: bool)
    | JNum(n: int)
    | JStr(s: string)
    | JArr(items: seq<Json>)
    | JObj(fields: map<string, Json>)

  /** The outcome of the POST to Gemini: an exception, or a status with a body (`None`: not JSON). */
  datatype HttpReply = Raised | Reply(status: int, body: Option<Json>)

  const ProcessingFallback: string :=
    "The cosmic networks are processing your request. Try again in a moment."
  const InterferenceFallback: string :=
    "The cosmic networks are experiencing interference. Try again later."

  const StoryContext: string :=
    "You are a sci-fi storyteller for SourceSpace, a galactic productivity app. \n"
    + "            Create short, inspiring sci-fi stories (100-150 words) that motivate users based on their activities. \n"
    + "            Use space themes, cosmic metaphors, and futuristic elements. Keep it uplifting and actionable."
  const AnalysisContext: string :=
    "You are an AI mentor from the future helping users optimize their productivity. \n"
    + "            Provide brief, insightful analysis (50-75 words) with sci-fi metaphors. \n"
    + "            Focus on patterns, growth, and cosmic perspective on their journey."

  /** The system context: the storyteller for "story", the mentor for any other type. */
  function SystemContext(contentType: string): (c: string)
    ensures c == StoryContext <==> contentType == "story"
    ensures c == AnalysisContext <==> contentType != "story"
  {
    if contentType == "story" then StoryContext else AnalysisContext
  }

  /** What separates the system context from the user's prompt. */
  const UserContextSeparator: string := "\n\nUser context: "

  /** The text sent to the model: system context, a blank line, then the user context. */
  function FullPrompt(prompt: string, contentType: string): (p: string)
    ensures SystemContext(contentType) <= p
    ensures |prompt| <= |p| && p[|p| - |prompt|..] == prompt
    ensures |p| == |SystemContext(contentType)| + |UserContextSeparator| + |prompt|
    ensures p[|SystemContext(contentType)|..|p| - |prompt|] == UserContextSeparator
  {
    var head := SystemContext(contentType) + UserContextSeparator;
    PrefixAndSuffix(head, prompt);
    PrefixAndSuffix(SystemContext(contentType), UserContextSeparator + prompt);
    AppendAssociative(SystemContext(contentType), UserContextSeparator, prompt);
    assert head[|SystemContext(contentType)|..] == UserContextSeparator;
    head + prompt
  }

  predicate IsSubstring(k: string, s: string) {
    exists i :: 0 <= i <= |s| - |k| && k <= s[i..]
  }

  /**
   * Python `key in v`: key lookup in an object, element test in a list,
   * substring test in a string; `None` where Python raises `TypeError`.
   */
  function PyContains(v: Json, key: string): (r: Option<bool>)
    ensures r.None? <==> v.JNull? || v.JBool? || v.JNum?
    ensures v.JObj? ==> r == Some(key in v.fields)
    ensures v.JArr? ==> r == Some(JStr(key) in v.items)
  {
    match v
    case JObj(fields) => Some(key in fields)
    case JArr(items) => Some(JStr(key) in items)
    case JStr(s) => Some(IsSubstring(key, s))
    case _ => None
  }

  /** Python `len(v)`; `None` where Python raises `TypeError`, and 0 exactly for an empty container. */
  function PyLen(v: Json): (r: Option<nat>)
    ensures r.None? <==> v.JNull? || v.JBool? || v.JNum?
    ensures r == Some(0) <==> v == JObj(map[]) || v == JArr([]) || v == JStr([])
  {
    match v
    case JObj(fields) => Some(|fields|)
    case JArr(items) => Some(|items|)
    case JStr(s) => Some(|s|)
    case _ => None
  }

  /** Python `v[key]` with a string key: defined only on an object holding `key`; `None` where Python raises. */
  function Field(v: Json, key: string): (r: Option<Json>)
    ensures r.Some? <==> v.JObj? && key in v.fields
    ensures r.Some? ==> r.value == v.fields[key]
  {
    if v.JObj? && key in v.fields then Some(v.fields[key]) else None
  }

  /** Python `v[0]`: defined only on a non-empty list or string; `None` where Python raises. */
  function First(v: Json): (r: Option<Json>)
    ensures r.Some? <==> (v.JArr? && v.items != []) || (v.JStr? && v.s != [])
    ensures v.JArr? && v.items != [] ==> r == Some(v.items[0])
  {
    match v
    case JArr(items) => if items != [] then Some(items[0]) else None
    case JStr(s) => if s != [] then Some(JStr([s[0]])) else None
    case _ => None
  }

  /**
   * `result["candidates"][0]["content"]["parts"][0]["text"]` when it is a
   * string. It is found only when `candidates` is a non-empty list whose
   * first element is an object with a `content` object holding `parts`.
   */
  function CandidateText(result: Json): (r: Option<string>)
    ensures r.Some? ==> result.JObj? && "candidates" in result.fields
                        && result.fields["candidates"].JArr? && result.fields["candidates"].items != []
    ensures r.Some? ==> var c0 := result.fields["candidates"].items[0];
              c0.JObj? && "content" in c0.fields && c0.fields["content"].JObj?
              && "parts" in c0.fields["content"].fields
  {
    var c := Field(result, "candidates");
    var c0 := if c.Some? then First(c.value) else None;
    var content := if c0.Some? then Field(c0.value, "content") else None;
    var parts := if content.Some? then Field(content.value, "parts") else None;
    var p0 := if parts.Some? then First(parts.value) else None;
    var text := if p0.Some? then Field(p0.value, "text") else None;
    if text.Some? && text.value.JStr? then Some(text.value.s) else None
  }

  /**
   * What `generate_sci_fi_content` returns for a reply; every exception is
   * caught, so it always returns text.
   */
  function DecodeReply(reply: HttpReply): (text: string)
    ensures reply.Raised? || reply.status != 200 || reply.body.None? ==> text == InterferenceFallback
    ensures reply.Reply? && reply.status == 200 && reply.body.Some?
            && PyContains(reply.body.value, "candidates").None?
            ==> text == InterferenceFallback
    ensures reply.Reply? && reply.status == 200 && reply.body.Some?
            && PyContains(reply.body.value, "candidates") == Some(false)
            ==> text == ProcessingFallback
    ensures reply.Reply? && reply.status == 200 && reply.body.Some? && !reply.body.value.JObj?
            && PyContains(reply.body.value, "candidates") == Some(true)
            ==> text == InterferenceFallback
    ensures reply.Reply? && reply.status == 200 && reply.body.Some? && reply.body.value.JObj?
            && "candidates" in reply.body.value.fields
            && PyLen(reply.body.value.fields["candidates"]) == Some(0)
            ==> text == ProcessingFallback
    ensures reply.Reply? && reply.status == 200 && reply.body.Some? && reply.body.value.JObj?
            && "candidates" in reply.body.value.fields
            && PyLen(reply.body.value.fields["candidates"]) != Some(0)
            && CandidateText(reply.body.value).None?
            ==> text == InterferenceFallback
    ensures reply.Reply? && reply.status == 200 && reply.body.Some? && CandidateText(reply.body.value).Some?
            ==> text == PyStrip(CandidateText(reply.body.value).value)
    ensures text == ProcessingFallback || text == InterferenceFallback
            || (reply.Reply? && reply.body.Some? && CandidateText(reply.body.value).Some?
                && text == PyStrip(CandidateText(reply.body.value).value))
  {
    match reply
    case Raised => InterferenceFallback
    case Reply(status, body) =>
      if status != 200 || body.None? then InterferenceFallback
      else
        var result := body.value;
        match PyContains(result, "candidates")
        case None => InterferenceFallback
        case Some(found) =>
          if !found then ProcessingFallback
          else
            var candidates := Field(result, "candidates");
            if candidates.None? then InterferenceFallback
            else match PyLen(candidates.value)
              case None => InterferenceFallback
              case Some(n) =>
                if n == 0 then ProcessingFallback
                else
                  var text := CandidateText(result);
                  if text.None? then InterferenceFallback else PyStrip(text.value)
  }

  /**
   * The body of a successful Gemini reply whose first candidate's first part
   * holds `text`. Every level may carry further fields (`usageMetadata` and
   * `modelVersion` at the top, `finishReason` on the candidate, `role` on the
   * content), and further candidates and parts may follow the first.
   */
  function GeminiBody(text: string, top: map<string, Json>, candidate: map<string, Json>,
                      content: map<string, Json>, part: map<string, Json>,
                      moreCandidates: seq<Json>, moreParts: seq<Json>): Json
  {
    var p0 := JObj(part["text" := JStr(text)]);
    var c := JObj(content["parts" := JArr([p0] + moreParts)]);
    JObj(top["candidates" := JArr([JObj(candidate["content" := c])] + moreCandidates)])
  }

  /** How Python reads a body built by `GeminiBody`: the candidate list is non-empty and the text is found. */
  lemma GeminiBodyReads(text: string, top: map<string, Json>, candidate: map<string, Json>,
                        content: map<string, Json>, part: map<string, Json>,
                        moreCandidates: seq<Json>, moreParts: seq<Json>)
    ensures var body := GeminiBody(text, top, candidate, content, part, moreCandidates, moreParts);
            PyContains(body, "candidates") == Some(true)
            && Field(body, "candidates").Some?
            && PyLen(Field(body, "candidates").value) == Some(1 + |moreCandidates|)
            && CandidateText(body) == Some(text)
  {
    var p0 := JObj(part["text" := JStr(text)]);
    var c := JObj(content["parts" := JArr([p0] + moreParts)]);
    var c0 := JObj(candidate["content" := c]);
    assert ([p0] + moreParts)[0] == p0;
    assert ([c0] + moreCandidates)[0] == c0;
  }

  /** A well-formed reply, whatever else it carries, decodes to its first candidate's text, stripped. */
  lemma DecodeWellFormedReply(text: string, top: map<string, Json>, candidate: map<string, Json>,
                              content: map<string, Json>, part: map<string, Json>,
                              moreCandidates: seq<Json>, moreParts: seq<Json>)
    ensures DecodeReply(Reply(200, Some(GeminiBody(text, top, candidate, content, part, moreCandidates, moreParts))))
            == PyStrip(text)
  {
    GeminiBodyReads(text, top, candidate, content, part, moreCandidates, moreParts);
  }

  /** A reply as the Gemini API sends it, with role, finish reason, usage and model version, decodes to its text. */
  lemma DecodeTypicalReply(text: string)
    ensures DecodeReply(Reply(200, Some(JObj(map[
              "candidates" := JArr([JObj(map[
                "content" := JObj(map["parts" := JArr([JObj(map["text" := JStr(text)])]),
                                      "role" := JStr("model")]),
                "finishReason" := JStr("STOP")])]),
              "usageMetadata" := JObj(map["totalTokenCount" := JNum(42)]),
              "modelVersion" := JStr("gemini-2.0-flash")]))))
            == PyStrip(text)
  {
    var part := JObj(map["text" := JStr(text)]);
    var content := JObj(map["parts" := JArr([part]), "role" := JStr("model")]);
    var candidate := JObj(map["content" := content, "finishReason" := JStr("STOP")]);
    var body := JObj(map["candidates" := JArr([candidate]),
                         "usageMetadata" := JObj(map["totalTokenCount" := JNum(42)]),
                         "modelVersion" := JStr("gemini-2.0-flash")]);
    assert Field(body, "candidates") == Some(JArr([candidate]));
    assert Field(candidate, "content") == Some(content);
    assert Field(content, "parts") == Some(JArr([part]));
    assert CandidateText(body) == Some(text);
  }

  /**
   * A 200 reply whose object has no candidates, or an empty list, object or
   * string under `candidates`, gives the "processing" text.
   */
  lemma DecodeWithoutCandidates(fields: map<string, Json>)
    requires "candidates" !in fields || fields["candidates"] in {JArr([]), JObj(map[]), JStr("")}
    ensures DecodeReply(Reply(200, Some(JObj(fields)))) == ProcessingFallback
  {
  }

  /** A list body holding the string "candidates" passes the `in` test, and `result["candidates"]` then raises. */
  lemma DecodeListBody()
    ensures DecodeReply(Reply(200, Some(JArr([JStr("candidates")])))) == InterferenceFallback
  {
  }

  /** A candidate that is not an object makes `[0]["content"]` raise, which is caught as interference. */
  lemma DecodeMalformedCandidate()
    ensures DecodeReply(Reply(200, Some(JObj(map["candidates" := JArr([JNull])])))) == InterferenceFallback
  {
  }

  // ------------------------------------------------------- insight handler

  /** The handler's outcome: an HTTP error status, or the generated insight. */
  datatype InsightOutcome =
    | HttpError(status: int)
    | Generated(modelPrompt: string, insight: AIInsight)

  /** `request.get("type", "story")`. */
  function InsightTypeOf(requested: Option<string>): (t: string)
    ensures requested.None? ==> t == "story"
    ensures requested.Some? ==> t == requested.value
  {
    if requested.Some? then requested.value else "story"
  }

  /** The `except Exception` around the handler: every error leaves as status 500. */
  function CatchAll(o: InsightOutcome): (r: InsightOutcome)
    ensures r.HttpError? <==> o.HttpError?
    ensures r.HttpError? ==> r.status == 500
    ensures r.Generated? ==> r == o
  {
    if o.HttpError? then HttpError(500) else o
  }

  /**
   * `POST /api/insights/generate`. A missing or empty `user_id` raises 400
   * inside the `try`, which the catch-all turns into 500. Otherwise the
   * user's 3 newest entries and 5 newest habit records give the prompt, the
   * model's reply is decoded, and the insight is stored with the decoded
   * text and the requested type ("story" when none was given).
   */
  method GenerateInsight(userId: Option<string>, requestedType: Option<string>,
                         journal: seq<JournalEntry>, habits: seq<HabitEntry>,
                         reply: HttpReply, insightId: string, now: int)
    returns (outcome: InsightOutcome, recentEntries: seq<JournalEntry>, recentHabits: seq<HabitEntry>)
    ensures userId.None? || userId.value == "" <==> outcome.HttpError?
    ensures outcome.HttpError? ==> outcome.status == 500
    ensures outcome.Generated? ==>
      var uid := userId.value;
      var insightType := InsightTypeOf(requestedType);
      IsNewestFirst(journal, JournalOwner, JournalDate, uid, ContextEntries, recentEntries)
      && IsNewestFirst(habits, HabitOwner, HabitDate, uid, ContextHabits, recentHabits)
      && outcome.modelPrompt == FullPrompt(InsightPrompt(recentEntries, recentHabits, insightType), insightType)
      && outcome.insight == AIInsight(insightId, uid, DecodeReply(reply), insightType, now)
  {
    var raised: InsightOutcome;
    recentEntries, recentHabits := [], [];
    var insightType := InsightTypeOf(requestedType);
    if userId.None? || userId.value == "" {
      raised := HttpError(400);
    } else {
      var uid := userId.value;
      recentEntries := FindNewest(journal, JournalOwner, JournalDate, uid, ContextEntries);
      recentHabits := FindNewest(habits, HabitOwner, HabitDate, uid, ContextHabits);
      var prompt := BuildPrompt(recentEntries, recentHabits, insightType);
      var content := DecodeReply(reply);
      raised := Generated(FullPrompt(prompt, insightType), AIInsight(insightId, uid, content, insightType, now));
    }
    outcome := CatchAll(raised);
  }

  // ------------------------------------------------------------- dashboard

  /** Thirty days, in seconds. */
  const ThirtyDays: int := 30 * 24 * 60 * 60

  /** A stricter filter never keeps more. */
  lemma {:induction false} FilterNarrower<T(!new)>(s: seq<T>, p: T -> bool, q: T -> bool)
    requires forall x :: q(x) ==> p(x)
    ensures |Filter(s, q)| <= |Filter(s, p)|
  {
    if s != [] {
      FilterNarrower(s[1..], p, q);
    }
  }

  /** The total of the moods of `s`: between one and ten times `|s|` when every mood is in 1..10. */
  function MoodSum(s: seq<JournalEntry>): (total: int)
    ensures (forall i :: 0 <= i < |s| ==> 1 <= s[i].mood <= 10) ==> |s| <= total <= 10 * |s|
  {
    if s == [] then 0 else MoodSum(s[..|s| - 1]) + s[|s| - 1].mood
  }

  // The `count_documents` and `$match` filters of the dashboard.
  function EntryOf(userId: string): JournalEntry -> bool {
    (e: JournalEntry) => e.userId == userId
  }
  function RecentEntryOf(userId: string, since: int): JournalEntry -> bool {
    (e: JournalEntry) => e.userId == userId && e.date >= since
  }
  function RecentHabitOf(userId: string, since: int): HabitEntry -> bool {
    (h: HabitEntry) => h.userId == userId && h.date >= since
  }
  function DoneHabitOf(userId: string, since: int): HabitEntry -> bool {
    (h: HabitEntry) => h.userId == userId && h.date >= since && h.completed
  }

  datatype DashboardStats = DashboardStats(
    totalEntries: nat, recentEntries: nat, avgMood: real, completionRate: real,
    totalHabits: nat, completedHabits: nat, streakDays: nat)

  /**
   * `GET /api/dashboard/{user_id}` before rounding. The average mood is 5.0
   * when the user has no entry in the last thirty days, the completion rate
   * is 0 without habit records and a percentage otherwise, and the streak is
   * simply the number of recent entries.
   */
  function Dashboard(journal: seq<JournalEntry>, habits: seq<HabitEntry>, userId: string, now: int)
    : (d: DashboardStats)
    ensures d.totalEntries == |Filter(journal, EntryOf(userId))|
    ensures d.recentEntries == |Filter(journal, RecentEntryOf(userId, now - ThirtyDays))|
    ensures d.totalHabits == |Filter(habits, RecentHabitOf(userId, now - ThirtyDays))|
    ensures d.completedHabits == |Filter(habits, DoneHabitOf(userId, now - ThirtyDays))|
    ensures d.streakDays == d.recentEntries
    ensures d.recentEntries <= d.totalEntries
    ensures d.avgMood == Mean(MoodSum(Filter(journal, RecentEntryOf(userId, now - ThirtyDays))), d.recentEntries, 5.0)
    ensures d.recentEntries == 0 ==> d.avgMood == 5.0
    ensures d.completedHabits <= d.totalHabits
    ensures d.completionRate == CompletionRate(d.completedHabits, d.totalHabits)
    ensures d.totalHabits == 0 ==> d.completionRate == 0.0
    ensures 0.0 <= d.completionRate <= 100.0
    ensures d.completedHabits == d.totalHabits && d.totalHabits > 0 ==> d.completionRate == 100.0
  {
    var since := now - ThirtyDays;
    var recent := Filter(journal, RecentEntryOf(userId, since));
    FilterNarrower(journal, EntryOf(userId), RecentEntryOf(userId, since));
    var avgMood := Mean(MoodSum(recent), |recent|, 5.0);
    var totalHabits := |Filter(habits, RecentHabitOf(userId, since))|;
    var completedHabits := |Filter(habits, DoneHabitOf(userId, since))|;
    FilterNarrower(habits, RecentHabitOf(userId, since), DoneHabitOf(userId, since));
    DashboardStats(|Filter(journal, EntryOf(userId))|, |recent|, avgMood,
                   CompletionRate(completedHabits, totalHabits), totalHabits, completedHabits, |recent|)
  }

  /** `$avg` over `count` values summing to `sum`, with `otherwise` when there are none. */
  function Mean(sum: int, count: nat, otherwise: real): (m: real)
    ensures count == 0 ==> m == otherwise
    ensures count > 0 ==> m * count as real == sum as real
  {
    if count > 0 then
      assert sum as real / count as real * count as real == sum as real;
      sum as real / count as real
    else otherwise
  }

  /**
   * `completed_habits / total_habits * 100`, or 0 when there are no habit
   * records: a percentage as long as no more habits are completed than exist.
   */
  function CompletionRate(completed: nat, total: nat): (rate: real)
    ensures total == 0 ==> rate == 0.0
    ensures total > 0 ==> rate * total as real == completed as real * 100.0
    ensures 0.0 <= rate
    ensures completed <= total ==> rate <= 100.0
    ensures completed == total && total > 0 ==> rate == 100.0
  {
    if total > 0 then
      RateBounds(completed, total);
      completed as real / total as real * 100.0
    else 0.0
  }

  /** A completion percentage is never negative, and at most 100 when no more habits are completed than exist. */
  lemma RateBounds(completed: nat, total: nat)
    requires total > 0
    ensures 0.0 <= completed as real / total as real * 100.0
    ensures completed <= total ==> completed as real / total as real * 100.0 <= 100.0
    ensures completed == total ==> completed as real / total as real * 100.0 == 100.0
  {
    var q := completed as real / total as real;
    assert 0.0 <= q;
    if completed <= total {
      RatioBounds(completed as real, total as real, 0.0, 1.0);
    }
  }

  /** A quotient of a value between `lo * n` and `hi * n` by a positive `n` lies between `lo` and `hi`. */
  lemma RatioBounds(a: real, n: real, lo: real, hi: real)
    requires n > 0.0 && lo * n <= a <= hi * n
    ensures lo <= a / n <= hi
  {
    assert a / n * n == a;
  }

  /** When the user's moods of the last thirty days are all in 1..10, so is the dashboard's average. */
  lemma AverageMoodInRange(journal: seq<JournalEntry>, habits: seq<HabitEntry>, userId: string, now: int)
    requires forall e :: e in journal && e.userId == userId && e.date >= now - ThirtyDays ==> 1 <= e.mood <= 10
    ensures 1.0 <= Dashboard(journal, habits, userId, now).avgMood <= 10.0
  {
    var since := now - ThirtyDays;
    var recent := Filter(journal, RecentEntryOf(userId, since));
    var d := Dashboard(journal, habits, userId, now);
    assert d.avgMood == Mean(MoodSum(recent), |recent|, 5.0);
    if |recent| > 0 {
      forall i | 0 <= i < |recent|
        ensures 1 <= recent[i].mood <= 10
      {
        assert recent[i] in journal && RecentEntryOf(userId, since)(recent[i]);
      }
    }
    MoodMeanInRange(recent);
  }

  /** The mean mood of entries whose moods are all in 1..10 (5.0 for none) is in 1..10. */
  lemma MoodMeanInRange(s: seq<JournalEntry>)
    requires forall i :: 0 <= i < |s| ==> 1 <= s[i].mood <= 10
    ensures 1.0 <= Mean(MoodSum(s), |s|, 5.0) <= 10.0
  {
    if |s| > 0 {
      MeanBounds(MoodSum(s), |s|, 5.0, 1, 10);
    }
  }

  /** A mean of a sum between `lo` and `hi` times the count lies between `lo` and `hi`. */
  lemma MeanBounds(sum: int, count: nat, otherwise: real, lo: int, hi: int)
    requires count > 0 && lo * count <= sum <= hi * count
    ensures lo as real <= Mean(sum, count, otherwise) <= hi as real
  {
    ProductAsReal(lo, count);
    ProductAsReal(hi, count);
    RatioBounds(sum as real, count as real, lo as real, hi as real);
  }

  /** Converting a product to a real multiplies the converted factors. */
  lemma ProductAsReal(a: int, b: int)
    ensures (a * b) as real == a as real * b as real
  {
  }
}
