/**
 * `components/CareCircle.tsx`: the team chat (a message list with a draft field),
 * the grounded resource search (a query, a loading flag and the last result), and
 * the week calendar's per-day columns.
 */
module CareCircle {
  import opened Types
  import opened Text
  import opened Seqs
  import opened GeminiService

  // ---------------------------------------------------------------------------
  // team chat

  /** The id a message gets when it is the `n`-th one: `c${n}`. */
  function MessageId(n: nat): (id: string)
    ensures |id| >= 2 && id[0] == 'c' && IsDigits(id[1..])
    ensures ParseNat(id[1..]) == n
  {
    var digits := NatToString(n);
    ParseNatToString(n);
    assert ("c" + digits)[1..] == digits;
    "c" + digits
  }

  /** The list carries the ids c1, c2, ..., cn in order. */
  predicate HasSequentialIds(ms: seq<ChatMessage>)
  {
    forall i :: 0 <= i < |ms| ==> ms[i].id == MessageId(i + 1)
  }

  /** Sequential ids are pairwise distinct, so they serve as React keys. */
  lemma SequentialIdsAreUnique(ms: seq<ChatMessage>, i: nat, j: nat)
    requires HasSequentialIds(ms)
    requires i < |ms| && j < |ms| && i != j
    ensures ms[i].id != ms[j].id
  {
    assert ms[i].id == MessageId(i + 1) && ms[j].id == MessageId(j + 1);

  }

  /** Appending the message numbered after the list's length keeps the ids sequential. */
  lemma AppendKeepsSequentialIds(ms: seq<ChatMessage>, m: ChatMessage)
    requires HasSequentialIds(ms) && m.id == MessageId(|ms| + 1)
    ensures HasSequentialIds(ms + [m])
  {
    var ms' := ms + [m];
    forall i | 0 <= i < |ms'|
      ensures ms'[i].id == MessageId(i + 1)
    {
      if i < |ms| {
        assert ms'[i] == ms[i];
      }
    }
  }

  const SeedMessages := [
    ChatMessage("c1", Stacey, "9:05 AM", "Just a reminder, John is taking Gram to her appointment at 2 PM."),
    ChatMessage("c2", John, "9:06 AM", "Confirmed! I'll be there."),
    ChatMessage("c3", Craig, "9:10 AM", "Great, thanks both. I'll make sure she has her lunch before you go.")]

  /** The seed messages already follow the id scheme. */
  lemma SeedIdsAreSequential()
    ensures HasSequentialIds(SeedMessages)
  {
    assert NatToString(1) == "1" && NatToString(2) == "2" && NatToString(3) == "3";
  }

  /** Whether a message is drawn as the current user's own: by author id only. */
  predicate IsCurrentUser(msg: ChatMessage, me: User)
  {
    msg.author.id == me.id
  }

  /** Of the seed messages only Craig's own is drawn on his side of the chat. */
  lemma SeedOwnMessages()
    ensures forall i :: 0 <= i < |SeedMessages| ==> (IsCurrentUser(SeedMessages[i], Craig) <==> i == 2)
  {
  }

  /** Whose message it is depends on the author's id alone, not on the name or avatar shown. */
  lemma CurrentUserIsById(msg: ChatMessage, me: User, other: User)
    requires me.id == other.id
    ensures IsCurrentUser(msg, me) <==> IsCurrentUser(msg, other)
  {
  }

  class TeamChat {
    var messages: seq<ChatMessage>
    var newMessage: string
    const currentUser: User

    ghost predicate Valid()
      reads this
    {
      HasSequentialIds(messages)
    }

    /** The chat opens on the three seed messages, an empty draft and Craig as the user. */
    constructor ()
      ensures messages == SeedMessages && newMessage == [] && currentUser == Craig
      ensures Valid()
    {
      messages, newMessage, currentUser := SeedMessages, [], Craig;
      SeedIdsAreSequential();
    }

    /** Typing in the message field. */
    method EditDraft(s: string)
      modifies this`newMessage
      ensures newMessage == s
    {
      newMessage := s;
    }

    /** `handleSendMessage`: a blank draft changes nothing; otherwise one message by the current
        user, holding the untrimmed draft and numbered after the list's length, is appended
        and the draft is cleared. The local time string is a parameter. */
    method SendMessage(timestamp: string)
      modifies this`messages, this`newMessage
      ensures IsBlank(old(newMessage)) ==> messages == old(messages) && newMessage == old(newMessage)
      ensures !IsBlank(old(newMessage)) ==>
        && messages == old(messages) + [ChatMessage(MessageId(|old(messages)| + 1), currentUser, timestamp, old(newMessage))]
        && newMessage == []
        && IsCurrentUser(messages[|messages| - 1], currentUser)
      ensures old(Valid()) ==> Valid()
    {
      if IsBlank(newMessage) {
        return;
      }
      var message := ChatMessage(MessageId(|messages| + 1), currentUser, timestamp, newMessage);
      if Valid() {
        AppendKeepsSequentialIds(messages, message);
      }
      messages := messages + [message];
      newMessage := [];
    }
  }

  // ---------------------------------------------------------------------------
  // grounded search

  class GeminiSearch {
    var query: string
    var isLoading: bool
    var result: Option<GroundedSearchResult>

    constructor ()
      ensures query == [] && !isLoading && result == None
    {
      query, isLoading, result := [], false, None;
    }

    method EditQuery(q: string)
      modifies this`query
      ensures query == q
    {
      query := q;
    }

    /** The part of `handleSearch` before the `await`: a blank query sends nothing and leaves the
        previous result on screen; otherwise the untrimmed query is sent, the spinner shows and
        the old result is cleared. */
    method BeginSearch() returns (sent: Option<string>)
      modifies this`isLoading, this`result
      ensures IsBlank(query) ==> sent == None && isLoading == old(isLoading) && result == old(result)
      ensures !IsBlank(query) ==> sent == Some(query) && isLoading && result == None
    {
      if IsBlank(query) {
        return None;
      }
      isLoading := true;
      result := None;
      return Some(query);
    }

    /** The part after the `await`: the service's answer (or its apology) is shown and the spinner
        stops. */
    method CompleteSearch(reply: GroundedReply)
      modifies this`isLoading, this`result
      ensures result == Some(GroundedSuggestions(reply)) && !isLoading
    {
      result := Some(GroundedSuggestions(reply));
      isLoading := false;
    }
  }

  // ---------------------------------------------------------------------------
  // the week calendar

  const DaysOfWeek := ["Monday", "Tuesday", "Wednesday", "Thursday", "Friday", "Saturday", "Sunday"]

  /** The events shown under one day's heading. */
  function DayColumn(events: seq<CalendarEvent>, day: string): (col: seq<CalendarEvent>)
    ensures forall e :: e in col <==> e in events && e.day == day
    ensures forall i :: 0 <= i < |col| ==> col[i].day == day
  {
    var col := Filter(events, (e: CalendarEvent) => e.day == day);
    assert forall e :: e in col <==> e in events && e.day == day by {
      forall e ensures e in col <==> e in events && e.day == day {
        FilterMembership(events, (e: CalendarEvent) => e.day == day, e);
      }
    }
    col
  }

  /** The seven columns, Monday to Sunday. */
  function CalendarColumns(events: seq<CalendarEvent>): (cols: seq<seq<CalendarEvent>>)
    ensures |cols| == 7
    ensures forall i :: 0 <= i < 7 ==> cols[i] == DayColumn(events, DaysOfWeek[i])
  {
    seq(7, i requires 0 <= i < 7 => DayColumn(events, DaysOfWeek[i]))
  }

  /** An event appears in a column exactly when its day is that column's weekday; an event on a
      day outside Monday..Sunday appears in no column. */
  lemma EventPlacement(events: seq<CalendarEvent>, e: CalendarEvent, i: nat)
    requires e in events && i < 7
    ensures e in CalendarColumns(events)[i] <==> e.day == DaysOfWeek[i]
    ensures e.day !in DaysOfWeek ==> e !in CalendarColumns(events)[i]
  {
  }

  /** A column lists its events in the calendar's order. */
  lemma DayColumnKeepsOrder(a: seq<CalendarEvent>, b: seq<CalendarEvent>, day: string)
    ensures DayColumn(a + b, day) == DayColumn(a, day) + DayColumn(b, day)
  {
    FilterConcat(a, b, (e: CalendarEvent) => e.day == day);
  }
}
