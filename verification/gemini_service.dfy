/**
 * The deterministic logic around the hosted-model calls of `services/geminiService.ts`.
 * The calls themselves are foreign: a call's outcome enters as a `Reply` (the reply's
 * text, or a rejected promise), and JSON decoding enters as a function parameter.
 */
module GeminiService {
  import opened Types
  import opened Text
  import opened Seqs

  /** What one call to the hosted model produced. */
  datatype Reply = Answered(text: string) | Failed

  // ---------------------------------------------------------------------------
  // getGroundedSuggestions

  const GroundedApology := "Sorry, I encountered an error while trying to get suggestions. Please try again later."

  datatype Web = Web(uri: Option<string>, title: Option<string>)
  datatype GroundingChunk = GroundingChunk(web: Option<Web>)
  datatype Source = Source(title: string, uri: string)
  datatype GroundedSearchResult = GroundedSearchResult(answer: string, sources: seq<Source>)

  /** A grounded call's outcome: the answer and the grounding chunks of the first candidate,
      absent when the reply carries no grounding metadata. */
  datatype GroundedReply = GroundedAnswered(answer: string, chunks: Option<seq<GroundingChunk>>) | GroundedFailed

  /** A chunk survives the filter when it has a web entry whose uri and title are both non-empty. */
  predicate IsUsable(c: GroundingChunk)
  {
    && c.web.Some?
    && c.web.value.uri.Some? && c.web.value.uri.value != []
    && c.web.value.title.Some? && c.web.value.title.value != []
  }

  /** The kept chunk's title and uri, both non-empty. */
  function ToSource(c: GroundingChunk): (src: Source)
    requires IsUsable(c)
    ensures src.uri != [] && src.title != []
    ensures Some(src.uri) == c.web.value.uri && Some(src.title) == c.web.value.title
  {
    Source(c.web.value.title.value, c.web.value.uri.value)
  }

  /** The `map(web).filter(uri && title).map(...)` pipeline over the grounding chunks. */
  function Sources(chunks: seq<GroundingChunk>): (r: seq<Source>)
    ensures |r| <= |chunks|
    ensures forall i :: 0 <= i < |r| ==> r[i].uri != [] && r[i].title != []
  {
    if chunks == [] then []
    else (if IsUsable(chunks[0]) then [ToSource(chunks[0])] else []) + Sources(chunks[1..])
  }

  /** The sources are exactly the usable chunks, in their original order, one source per chunk. */
  lemma {:induction false} SourcesAreUsableChunks(chunks: seq<GroundingChunk>)
    ensures |Sources(chunks)| == |Filter(chunks, IsUsable)|
    ensures forall i :: 0 <= i < |Sources(chunks)| ==> IsUsable(Filter(chunks, IsUsable)[i])
    ensures forall i :: 0 <= i < |Sources(chunks)| ==> Sources(chunks)[i] == ToSource(Filter(chunks, IsUsable)[i])
  {
    if chunks != [] {
      var c, rest := chunks[0], chunks[1..];
      SourcesAreUsableChunks(rest);
      var sources, usable := Sources(chunks), Filter(chunks, IsUsable);
      if IsUsable(c) {
        assert sources == [ToSource(c)] + Sources(rest);
        assert usable == [c] + Filter(rest, IsUsable);
      } else {
        assert sources == Sources(rest);
        assert usable == Filter(rest, IsUsable);
      }
    }
  }

  /** `getGroundedSuggestions` after the call: the answer with its sources, or the apology and no sources. */
  function GroundedSuggestions(reply: GroundedReply): (r: GroundedSearchResult)
    ensures reply.GroundedFailed? ==> r == GroundedSearchResult(GroundedApology, [])
    ensures reply.GroundedAnswered? ==> r.answer == reply.answer
    ensures reply.GroundedAnswered? ==> r.sources == Sources(reply.chunks.GetOr([]))
    ensures reply.GroundedAnswered? && reply.chunks.None? ==> r.sources == []
    ensures forall s :: s in r.sources ==> s.uri != [] && s.title != []
  {
    match reply
    case GroundedFailed => GroundedSearchResult(GroundedApology, [])
    case GroundedAnswered(answer, chunks) => GroundedSearchResult(answer, Sources(chunks.GetOr([])))
  }

  // ---------------------------------------------------------------------------
  // generateWeeklyUpdate: the four data sections of the prompt

  const WeeklyUpdateApology := "Sorry, I couldn't generate the update right now. Please try again later."
  const AllClear := "The list is all clear!"

  datatype WeeklyUpdateContext = WeeklyUpdateContext(
    calendarEvents: seq<CalendarEvent>, wellnessLogs: seq<WellnessLog>, project: Project, shoppingList: seq<ShoppingItem>)

  /** The data the prompt carries, section by section; the prompt's fixed prose is not part of the model. */
  datatype WeeklyDigest = WeeklyDigest(
    upcomingShifts: string, recentLogs: string, projectTitle: string, projectTasks: string, shopping: string)

  /** `e.assignee?.name || 'unassigned'`: an absent assignee or an empty name reads "unassigned". */
  function AssigneeName(a: Option<User>): (name: string)
    ensures name != []
    ensures a.Some? && a.value.name != [] ==> name == a.value.name
  {
    if a.Some? && a.value.name != [] then a.value.name else "unassigned"
  }

  /** `${e.time}`: an absent time is written out as "undefined". */
  function TimeText(t: Option<string>): string
  {
    t.GetOr("undefined")
  }

  predicate IsShift(e: CalendarEvent)
  {
    e.kind == Shift
  }

  predicate IsOpen(t: Task)
  {
    t.status != Done
  }

  /** A bullet line; it holds a line break exactly when one of the pieces it is built from does. */
  function ShiftLine(e: CalendarEvent): (line: string)
    ensures |line| >= 2 && line[..2] == "- "
    ensures '\n' in line <==> '\n' in e.day || '\n' in TimeText(e.time) || '\n' in e.title || '\n' in AssigneeName(e.assignee)
  {
    "- " + e.day + " @ " + TimeText(e.time) + ": " + e.title + " (with " + AssigneeName(e.assignee) + ")"
  }

  function LogLine(l: WellnessLog): (line: string)
    ensures |line| >= 2 && line[..2] == "- "
    ensures '\n' in line <==> '\n' in l.author.name || '\n' in l.content
  {
    "- From " + l.author.name + ": \"" + l.content + "\""
  }

  function TaskLine(t: Task): (line: string)
    ensures |line| >= 2 && line[..2] == "- "
    ensures '\n' in line <==> '\n' in t.title
  {
    "- " + t.title + " (Status: " + StatusLabel(t.status) + ")"
  }

  function ShoppingLine(item: ShoppingItem): (line: string)
    ensures |line| >= 2 && line[..2] == "- "
    ensures '\n' in line <==> '\n' in item.name || '\n' in item.addedBy.name
  {
    "- " + item.name + " (added by " + item.addedBy.name + ")"
  }

  /** One line for each of the first three shifts, in calendar order; birthdays are skipped. */
  function ShiftLines(events: seq<CalendarEvent>): (lines: seq<string>)
    ensures |lines| <= 3
    ensures |lines| == if |Filter(events, IsShift)| < 3 then |Filter(events, IsShift)| else 3
    ensures forall i :: 0 <= i < |lines| ==> lines[i] == ShiftLine(Filter(events, IsShift)[i])
  {
    Map(Take(Filter(events, IsShift), 3), ShiftLine)
  }

  /** One line for each of the first two wellness logs. */
  function LogLines(logs: seq<WellnessLog>): (lines: seq<string>)
    ensures |lines| == if |logs| < 2 then |logs| else 2
    ensures forall i :: 0 <= i < |lines| ==> lines[i] == LogLine(logs[i])
  {
    Map(Take(logs, 2), LogLine)
  }

  /** One line for each task that is not done, in project order. */
  function OpenTaskLines(tasks: seq<Task>): (lines: seq<string>)
    ensures |lines| == |Filter(tasks, IsOpen)|
    ensures forall i :: 0 <= i < |lines| ==> lines[i] == TaskLine(Filter(tasks, IsOpen)[i])
    ensures forall i :: 0 <= i < |lines| ==> Filter(tasks, IsOpen)[i].status != Done
  {
    Map(Filter(tasks, IsOpen), TaskLine)
  }

  /** The shopping section: the all-clear sentence exactly when the list is empty. */
  function ShoppingText(items: seq<ShoppingItem>): (text: string)
    ensures text == AllClear <==> items == []
    ensures items != [] ==> text == Join(Map(items, ShoppingLine), '\n')
  {
    if |items| > 0 then
      var lines := Map(items, ShoppingLine);
      JoinStartsWithFirst(lines, '\n');
      Join(lines, '\n')
    else AllClear
  }

  /** A joined text starts with the first piece's first character. */
  lemma JoinStartsWithFirst(parts: seq<string>, sep: char)
    requires |parts| > 0 && |parts[0]| > 0
    ensures |Join(parts, sep)| > 0 && Join(parts, sep)[0] == parts[0][0]
  {
  }

  /** The four sections `generateWeeklyUpdate` writes into its prompt. A section with nothing to
      list is empty text, except the shopping section, which then says the list is all clear. */
  function WeeklyDigestFor(ctx: WeeklyUpdateContext): (d: WeeklyDigest)
    ensures d.upcomingShifts == Join(ShiftLines(ctx.calendarEvents), '\n')
    ensures d.recentLogs == Join(LogLines(ctx.wellnessLogs), '\n')
    ensures d.projectTitle == ctx.project.title
    ensures d.projectTasks == Join(OpenTaskLines(ctx.project.tasks), '\n')
    ensures d.shopping == ShoppingText(ctx.shoppingList)
    ensures d.upcomingShifts == [] <==> Filter(ctx.calendarEvents, IsShift) == []
    ensures d.recentLogs == [] <==> ctx.wellnessLogs == []
    ensures d.projectTasks == [] <==> Filter(ctx.project.tasks, IsOpen) == []
    ensures d.shopping == AllClear <==> ctx.shoppingList == []
  {
    var shifts, logs, tasks := ShiftLines(ctx.calendarEvents), LogLines(ctx.wellnessLogs), OpenTaskLines(ctx.project.tasks);
    assert shifts != [] ==> Join(shifts, '\n') != [] by {
      if shifts != [] { JoinStartsWithFirst(shifts, '\n'); }
    }
    assert logs != [] ==> Join(logs, '\n') != [] by {
      if logs != [] { JoinStartsWithFirst(logs, '\n'); }
    }
    assert tasks != [] ==> Join(tasks, '\n') != [] by {
      if tasks != [] { JoinStartsWithFirst(tasks, '\n'); }
    }
    WeeklyDigest(Join(shifts, '\n'), Join(logs, '\n'), ctx.project.title, Join(tasks, '\n'), ShoppingText(ctx.shoppingList))
  }

  /** Each line list the digest joins can be read back from its text, as long as no line holds a line break. */
  lemma DigestSectionLines(lines: seq<string>)
    requires |lines| > 0
    requires forall i :: 0 <= i < |lines| ==> '\n' !in lines[i]
    ensures Split(Join(lines, '\n'), '\n') == lines
  {
    SplitJoin(lines, '\n');
  }

  /** When no generated line holds a line break, each non-empty section of the digest splits back
      into exactly its lines: the first three shifts, the first two logs, the open tasks and every
      shopping item, each in order. */
  lemma DigestSectionsReadBack(ctx: WeeklyUpdateContext)
    requires forall e :: e in ctx.calendarEvents ==> '\n' !in ShiftLine(e)
    requires forall l :: l in ctx.wellnessLogs ==> '\n' !in LogLine(l)
    requires forall t :: t in ctx.project.tasks ==> '\n' !in TaskLine(t)
    requires forall item :: item in ctx.shoppingList ==> '\n' !in ShoppingLine(item)
    ensures ShiftLines(ctx.calendarEvents) != [] ==>
      Split(WeeklyDigestFor(ctx).upcomingShifts, '\n') == ShiftLines(ctx.calendarEvents)
    ensures ctx.wellnessLogs != [] ==>
      Split(WeeklyDigestFor(ctx).recentLogs, '\n') == LogLines(ctx.wellnessLogs)
    ensures OpenTaskLines(ctx.project.tasks) != [] ==>
      Split(WeeklyDigestFor(ctx).projectTasks, '\n') == OpenTaskLines(ctx.project.tasks)
    ensures ctx.shoppingList != [] ==>
      Split(WeeklyDigestFor(ctx).shopping, '\n') == Map(ctx.shoppingList, ShoppingLine)
  {
    var shifts, logs, tasks := ShiftLines(ctx.calendarEvents), LogLines(ctx.wellnessLogs), OpenTaskLines(ctx.project.tasks);
    var shopping := Map(ctx.shoppingList, ShoppingLine);
    if shifts != [] {
      var kept := Filter(ctx.calendarEvents, IsShift);
      forall i | 0 <= i < |shifts| ensures '\n' !in shifts[i] {
        FilterMembership(ctx.calendarEvents, IsShift, kept[i]);
      }
      DigestSectionLines(shifts);
    }
    if logs != [] {
      forall i | 0 <= i < |logs| ensures '\n' !in logs[i] {
        assert ctx.wellnessLogs[i] in ctx.wellnessLogs;
      }
      DigestSectionLines(logs);
    }
    if tasks != [] {
      var open := Filter(ctx.project.tasks, IsOpen);
      forall i | 0 <= i < |tasks| ensures '\n' !in tasks[i] {
        FilterMembership(ctx.project.tasks, IsOpen, open[i]);
      }
      DigestSectionLines(tasks);
    }
    if shopping != [] {
      forall i | 0 <= i < |shopping| ensures '\n' !in shopping[i] {
        assert ctx.shoppingList[i] in ctx.shoppingList;
      }
      DigestSectionLines(shopping);
    }
  }

  /** `generateWeeklyUpdate` after the call: the model's text, or the fixed apology. */
  function WeeklyUpdate(reply: Reply): (text: string)
    ensures reply.Failed? ==> text == WeeklyUpdateApology
    ensures reply.Answered? ==> text == reply.text
  {
    match reply
    case Answered(t) => t
    case Failed => WeeklyUpdateApology
  }

  // ---------------------------------------------------------------------------
  // generateMealPlan

  /** `generateMealPlan` after the call. `decode` stands for `JSON.parse`; `None` is a parse error. */
  function MealPlan(reply: Reply, decode: string -> Option<seq<MealPlanDay>>): (plan: seq<MealPlanDay>)
    ensures plan != [] ==> reply.Answered? && StartsAndEndsWith(Trim(reply.text), '[', ']')
    ensures reply.Answered? && StartsAndEndsWith(Trim(reply.text), '[', ']') ==> plan == decode(Trim(reply.text)).GetOr([])
  {
    match reply
    case Failed => []
    case Answered(t) =>
      var jsonText := Trim(t);
      if StartsAndEndsWith(jsonText, '[', ']') then decode(jsonText).GetOr([]) else []
  }

  // ---------------------------------------------------------------------------
  // generateMemoryStory

  const StoryApology := "There was a problem creating the story for this memory. Please try again."

  /** `generateMemoryStory` after the call: the model's text, or the fixed apology. */
  function MemoryStory(reply: Reply): (story: string)
    ensures reply.Failed? ==> story == StoryApology
    ensures reply.Answered? ==> story == reply.text
  {
    match reply
    case Answered(t) => t
    case Failed => StoryApology
  }

  // ---------------------------------------------------------------------------
  // getLiveGameScore

  function ScoreFields(s: LiveScore): seq<string>
  {
    [s.mtlScore, s.opponentScore, s.period, s.timeRemaining]
  }

  /** `getLiveGameScore` after the call: a score exactly when the trimmed reply splits on ','
      into four fields, which are then the score's fields in order. */
  function ParseLiveScore(reply: Reply): (r: Option<LiveScore>)
    ensures reply.Failed? ==> r == None
    ensures reply.Answered? ==> (r.Some? <==> |Split(Trim(reply.text), ',')| == 4)
    ensures r.Some? ==> ScoreFields(r.value) == Split(Trim(reply.text), ',')
  {
    match reply
    case Failed => None
    case Answered(t) =>
      var text := Trim(t);
      if text == [] then
        assert Split(text, ',') == [[]];
        None
      else ScoreOfFields(text)
  }

  /** The comma split of a non-empty trimmed reply: a score exactly when there are four parts. */
  function ScoreOfFields(text: string): (r: Option<LiveScore>)
    ensures r.Some? <==> |Split(text, ',')| == 4
    ensures r.Some? ==> ScoreFields(r.value) == Split(text, ',')
  {
    var parts := Split(text, ',');
    if |parts| == 4 then
      assert parts == [parts[0], parts[1], parts[2], parts[3]];
      Some(LiveScore(parts[0], parts[1], parts[2], parts[3]))
    else None
  }

  /** A reply that is empty or only whitespace gives no score. */
  lemma BlankReplyHasNoScore(t: string)
    requires IsBlank(t)
    ensures ParseLiveScore(Answered(t)) == None
  {
    assert Trim(t) == [];
  }

  /** Joining the parsed fields with ',' gives back the trimmed reply. */
  lemma ParsedScoreRejoins(reply: Reply)
    requires ParseLiveScore(reply).Some?
    ensures Join(ScoreFields(ParseLiveScore(reply).value), ',') == Trim(reply.text)
  {
    JoinSplit(Trim(reply.text), ',');
  }

  /** The reply format the prompt asks for, e.g. "3,1,2,10:45". */
  function FormatScore(s: LiveScore): string
  {
    s.mtlScore + "," + s.opponentScore + "," + s.period + "," + s.timeRemaining
  }

  /** A score that the reply format can carry: no field holds a comma, and the reply does not
      begin or end with whitespace that trimming would remove. */
  predicate WellFormedScore(s: LiveScore)
  {
    && ',' !in s.mtlScore && ',' !in s.opponentScore && ',' !in s.period && ',' !in s.timeRemaining
    && (s.mtlScore == [] || !IsJsWhitespace(s.mtlScore[0]))
    && (s.timeRemaining == [] || !IsJsWhitespace(s.timeRemaining[|s.timeRemaining| - 1]))
  }

  lemma JoinFour(s: LiveScore)
    ensures Join(ScoreFields(s), ',') == FormatScore(s)
  {
    var fields := ScoreFields(s);
    assert fields[1..][1..][1..] == [s.timeRemaining];
    assert Join(fields[1..][1..], ',') == s.period + "," + s.timeRemaining;
    assert Join(fields[1..], ',') == s.opponentScore + "," + s.period + "," + s.timeRemaining;
  }

  /** A reply in the requested format has nothing for trimming to remove. */
  lemma FormattedScoreIsTrimmed(s: LiveScore)
    requires WellFormedScore(s)
    ensures Trim(FormatScore(s)) == FormatScore(s)
  {
    var text := FormatScore(s);
    assert text[0] == (if s.mtlScore == [] then ',' else s.mtlScore[0]);
    assert text[|text| - 1] == (if s.timeRemaining == [] then ',' else s.timeRemaining[|s.timeRemaining| - 1]);
  }

  /** Parsing a reply in the requested format gives back the score it was written from. */
  lemma ParseFormattedScore(s: LiveScore)
    requires WellFormedScore(s)
    ensures ParseLiveScore(Answered(FormatScore(s))) == Some(s)
  {
    FormattedScoreSplits(s);
    FormattedScoreIsTrimmed(s);
    var r := ParseLiveScore(Answered(FormatScore(s)));
    assert r.Some? && ScoreFields(r.value) == ScoreFields(s);
  }

  /** A well-formed score's reply splits on ',' into exactly its four fields. */
  lemma FormattedScoreSplits(s: LiveScore)
    requires WellFormedScore(s)
    ensures Split(FormatScore(s), ',') == ScoreFields(s)
  {
    var fields := ScoreFields(s);
    assert forall i :: 0 <= i < |fields| ==> ',' !in fields[i];
    SplitJoin(fields, ',');
    JoinFour(s);
  }
}
