// The append-only message log of a conversation: sequence numbers, client-id replays, and
// keyset pages read while the log grows.
module Conversations {
  import opened Basics

  /** clientId None is SQL NULL. */
  datatype Message = Message(sequenceNo: nat, role: string, clientId: Option<string>, content: Value)

  type Log = seq<Message>

  /** uq_chat_messages_conv_seq and the partial unique index on client ids, and no gaps. */
  ghost predicate WellNumbered(log: Log) {
    && (forall i :: 0 <= i < |log| ==> log[i].sequenceNo == i + 1)
    && (forall i, j :: 0 <= i < j < |log| && log[i].clientId.Some? ==> log[i].clientId != log[j].clientId)
  }

  datatype Outcome = Inserted(message: Message) | Replayed(message: Message) | Conflict

  // ---- appending ----------------------------------------------------------------------

  /** The message with this client id. */
  function Find(log: Log, clientId: string): (r: Option<Message>)
    ensures r.Some? ==> r.value in log && r.value.clientId == Some(clientId)
    ensures r.None? ==> forall m :: m in log ==> m.clientId != Some(clientId)
  {
    if log == [] then None
    else if log[0].clientId == Some(clientId) then Some(log[0])
    else Find(log[1..], clientId)
  }

  function SequenceNos(log: Log): seq<nat> { seq(|log|, i requires 0 <= i < |log| => log[i].sequenceNo) }

  /** Only a non-empty client id is looked up. */
  predicate IsReplayKey(clientId: Option<string>) { clientId.Some? && clientId.value != "" }

  /** The locked part of _append_message: allocate, insert, and on a unique violation look again. */
  function Insertion(log: Log, role: string, content: Value, clientId: Option<string>): (Log, Outcome) {
    if clientId.Some? && Find(log, clientId.value).Some? then
      (log, if IsReplayKey(clientId) then Replayed(Find(log, clientId.value).value) else Conflict)
    else
      var m := Message(MaxOf(SequenceNos(log)) + 1, role, clientId, content);
      (log + [m], Inserted(m))
  }

  /** The whole of _append_message when nothing happens in between. */
  function Appended(log: Log, role: string, content: Value, clientId: Option<string>): (Log, Outcome) {
    if IsReplayKey(clientId) && Find(log, clientId.value).Some?
    then (log, Replayed(Find(log, clientId.value).value))
    else Insertion(log, role, content, clientId)
  }

  lemma InPrefix(early: Log, late: Log, clientId: string)
    requires WellNumbered(late) && early <= late && Find(early, clientId).Some?
    ensures Find(late, clientId) == Find(early, clientId)
  {
    var m := Find(early, clientId).value;
    assert m in late;
    var n := Find(late, clientId).value;
    var i :| 0 <= i < |late| && late[i] == m;
    var j :| 0 <= j < |late| && late[j] == n;
    assert i == j;
  }

  /** The first look-up happens before the lock: whatever other requests append in between, the
      call does what one atomic append on the later log would do. */
  lemma TwoPhasesAreAtomic(early: Log, late: Log, role: string, content: Value, clientId: Option<string>)
    requires WellNumbered(late) && early <= late
    ensures (if IsReplayKey(clientId) && Find(early, clientId.value).Some?
             then (late, Replayed(Find(early, clientId.value).value))
             else Insertion(late, role, content, clientId))
            == Appended(late, role, content, clientId)
  {
    if IsReplayKey(clientId) && Find(early, clientId.value).Some? { InPrefix(early, late, clientId.value); }
  }

  /** Numbers stay 1..n, and the log only ever grows at its end. */
  lemma AppendKeepsValid(log: Log, role: string, content: Value, clientId: Option<string>)
    requires WellNumbered(log)
    ensures WellNumbered(Appended(log, role, content, clientId).0)
    ensures log <= Appended(log, role, content, clientId).0
    ensures Appended(log, role, content, clientId).1.Inserted? ==>
              |Appended(log, role, content, clientId).0| == |log| + 1
    ensures !Appended(log, role, content, clientId).1.Inserted? ==> Appended(log, role, content, clientId).0 == log
  {
    MaxOfNumbered(SequenceNos(log));
  }

  /** A message that is not a replay is stored as it was sent, once, under the next number; and it is refused
      exactly when its client id is taken, which for the empty id is a conflict. */
  lemma AppendStores(log: Log, role: string, content: Value, clientId: Option<string>)
    requires WellNumbered(log)
    ensures var taken := clientId.Some? && exists m :: m in log && m.clientId == clientId;
            var (after, outcome) := Appended(log, role, content, clientId);
            var message := Message(|log| + 1, role, clientId, content);
            if !taken then after == log + [message] && outcome == Inserted(message)
            else after == log &&
                 if clientId.value == "" then outcome == Conflict
                 else exists m :: m in log && m.clientId == clientId && outcome == Replayed(m)
  {
    MaxOfNumbered(SequenceNos(log));
  }

  datatype Post = Post(role: string, content: Value, clientId: Option<string>)

  function Conversed(log: Log, posts: seq<Post>): Log
    decreases |posts|
  {
    if posts == [] then log
    else Conversed(Appended(log, posts[0].role, posts[0].content, posts[0].clientId).0, posts[1..])
  }

  lemma {:induction false} ConversedGrows(log: Log, posts: seq<Post>)
    requires WellNumbered(log)
    ensures WellNumbered(Conversed(log, posts)) && log <= Conversed(log, posts)
    decreases |posts|
  {
    if posts != [] {
      AppendKeepsValid(log, posts[0].role, posts[0].content, posts[0].clientId);
      ConversedGrows(Appended(log, posts[0].role, posts[0].content, posts[0].clientId).0, posts[1..]);
    }
  }

  /** A client that repeats a message, at any later time, gets the message it first created and adds
      nothing, as long as its id is not the empty string; with the empty string it gets a conflict. */
  lemma RepeatIsReplayed(log: Log, post: Post, between: seq<Post>, role: string, content: Value)
    requires WellNumbered(log) && post.clientId.Some?
    requires Appended(log, post.role, post.content, post.clientId).1.Inserted?
    ensures var (log1, first) := Appended(log, post.role, post.content, post.clientId);
            var log2 := Conversed(log1, between);
            Appended(log2, role, content, post.clientId) ==
            (log2, if post.clientId.value == "" then Conflict else Replayed(first.message))
  {
    var (log1, first) := Appended(log, post.role, post.content, post.clientId);
    AppendKeepsValid(log, post.role, post.content, post.clientId);
    ConversedGrows(log1, between);
    var log2 := Conversed(log1, between);
    assert log1[|log|] == first.message && first.message in log1;
    var m := Find(log1, post.clientId.value).value;
    var i :| 0 <= i < |log1| && log1[i] == m;
    assert i == |log|;
    InPrefix(log1, log2, post.clientId.value);
  }

  // ---- pages ---------------------------------------------------------------------------

  datatype Page = Page(items: Log, nextCursor: Option<int>)

  /** WHERE sequence_no > after ORDER BY sequence_no LIMIT n: the log is kept in that order. */
  function Select(log: Log, after: int, n: nat): (r: Log)
    ensures |r| <= n
  {
    if log == [] || n == 0 then []
    else if log[0].sequenceNo > after then [log[0]] + Select(log[1..], after, n - 1)
    else Select(log[1..], after, n)
  }

  /** Rows from number `first` on. */
  lemma {:induction false} SelectSuffix(log: Log, first: nat, after: int, n: nat)
    requires forall i :: 0 <= i < |log| ==> log[i].sequenceNo == first + i
    ensures var from := Min(|log|, Max(0, after + 1 - first));
            Select(log, after, n) == log[from..Min(|log|, from + n)]
  {
    if log != [] && n > 0 {
      if first > after { SelectSuffix(log[1..], first + 1, after, n - 1); }
      else { SelectSuffix(log[1..], first + 1, after, n); }
    }
  }

  class Conversation {
    var messages: Log

    ghost predicate Valid() reads this { WellNumbered(messages) }

    constructor ()
      ensures Valid() && messages == []
    {
      messages := [];
    }

    method AppendMessage(role: string, content: Value, clientId: Option<string>) returns (r: Outcome)
      requires Valid()
      modifies this
      ensures Valid()
      ensures (messages, r) == Appended(old(messages), role, content, clientId)
    {
      AppendKeepsValid(messages, role, content, clientId);
      if clientId.Some? && clientId.value != "" {
        var existing := Find(messages, clientId.value);
        if existing.Some? { return Replayed(existing.value); }
      }
      var nextSeq := MaxOf(SequenceNos(messages)) + 1;
      var message := Message(nextSeq, role, clientId, content);
      if clientId.Some? && Find(messages, clientId.value).Some? {
        return Conflict;
      }
      messages := messages + [message];
      r := Inserted(message);
    }

    /** One page: one row more than asked for tells whether there is a next page. */
    method ListMessages(cursor: Option<int>, limit: nat) returns (page: Page)
      requires Valid() && limit > 0
      ensures page == PageOf(messages, cursor, limit)
    {
      var rows := Select(messages, if cursor.Some? then cursor.value else 0, limit + 1);
      SelectSuffix(messages, 1, if cursor.Some? then cursor.value else 0, limit + 1);
      var hasMore := |rows| > limit;
      rows := rows[..Min(limit, |rows|)];
      ghost var from := Min(|messages|, Max(0, if cursor.Some? then cursor.value else 0));
      assert rows == messages[from..Min(|messages|, from + limit)];
      var nextCursor := None;
      if hasMore && rows != [] {
        nextCursor := Some(rows[|rows| - 1].sequenceNo);
      }
      page := Page(rows, nextCursor);
    }
  }

  /** What a page promises: the next `limit` messages after the cursor, and a cursor to go on from
      exactly when there are more. */
  function PageOf(log: Log, cursor: Option<int>, limit: nat): Page {
    var from := Min(|log|, Max(0, if cursor.Some? then cursor.value else 0));
    var to := Min(|log|, from + limit);
    Page(log[from..to], if to < |log| then Some(to) else None)
  }

  /** A page starts behind the cursor, leaves nothing out, and is no longer than asked for; it is shorter only
      at the end of the log, and there is a cursor exactly when there is more. */
  lemma PageHasTheNext(log: Log, cursor: Option<int>, limit: nat)
    requires WellNumbered(log)
    ensures var page, after := PageOf(log, cursor, limit), Max(0, if cursor.Some? then cursor.value else 0);
            && |page.items| == Min(limit, Max(0, |log| - after))
            && (forall i :: 0 <= i < |page.items| ==> page.items[i] in log && page.items[i].sequenceNo == after + 1 + i)
            && (page.nextCursor.Some? <==> after + |page.items| < |log|)
            && (page.nextCursor.Some? ==> page.nextCursor == Some(after + |page.items|))
  {
  }

  /** One read of a session: the log as it stands then, and the page size asked for. */
  datatype Read = Read(log: Log, limit: nat)

  ghost predicate Growing(session: seq<Read>) {
    && (forall i :: 0 <= i < |session| ==> WellNumbered(session[i].log) && session[i].limit > 0)
    && (forall i, j :: 0 <= i < j < |session| ==> session[i].log <= session[j].log)
  }

  /** Everything a client collects that follows next_cursor until there is none. */
  function Collected(session: seq<Read>, cursor: Option<int>): Log {
    if session == [] then []
    else
      var page := PageOf(session[0].log, cursor, session[0].limit);
      page.items + (if page.nextCursor.None? then [] else Collected(session[1..], page.nextCursor))
  }

  /** The read that had no next page, if the session got that far. */
  function LastRead(session: seq<Read>, cursor: Option<int>): (k: nat)
    ensures k <= |session|
  {
    if session == [] then 0
    else
      var page := PageOf(session[0].log, cursor, session[0].limit);
      if page.nextCursor.None? then 0 else 1 + LastRead(session[1..], page.nextCursor)
  }

  /** The log of the last page that was read. */
  function EndLog(session: seq<Read>, k: nat): Log
    requires session != [] && k <= |session|
  {
    session[if k < |session| then k else |session| - 1].log
  }

  lemma Stitch(first: Log, last: Log, c: nat, to: nat, rest: Log)
    requires first <= last && c <= to <= |first| && to + |rest| <= |last|
    requires rest == last[to..to + |rest|]
    ensures first[c..to] + rest == last[c..to + |rest|]
  {
    assert first[c..to] == last[c..to];
    assert last[c..to + |rest|] == last[c..to] + last[to..to + |rest|];
  }

  lemma GrowingTail(session: seq<Read>)
    requires Growing(session) && |session| > 1
    ensures Growing(session[1..]) && session[0].log <= session[1].log
    ensures forall k :: 0 <= k < |session| - 1 ==> session[0].log <= session[1..][k].log
  {
  }

  lemma {:induction false} CollectedFrom(session: seq<Read>, c: nat, got: Log, k: nat)
    requires Growing(session) && session != [] && c <= |session[0].log|
    requires got == Collected(session, Some(c)) && k == LastRead(session, Some(c))
    ensures c + |got| <= |EndLog(session, k)| && got == EndLog(session, k)[c..c + |got|]
    ensures k < |session| ==> c + |got| == |EndLog(session, k)|
    ensures k == |session| ==> |got| >= |session|
    decreases |session|
  {
    hide WellNumbered, Growing, PageOf, Collected, LastRead;
    FirstPage(session, c);
    OneRead(session, c);
    var page := PageOf(session[0].log, Some(c), session[0].limit);
    if page.nextCursor.Some? && |session| > 1 {
      var to, rest := page.nextCursor.value, session[1..];
      GrowingTail(session);
      var more, k' := Collected(rest, Some(to)), LastRead(rest, Some(to));
      CollectedFrom(rest, to, more, k');
      Stitch(session[0].log, EndLog(rest, k'), c, to, more);
      assert EndLog(session, k) == EndLog(rest, k');
    }
  }

  lemma OneRead(session: seq<Read>, c: nat)
    requires session != []
    ensures var page := PageOf(session[0].log, Some(c), session[0].limit);
            && (page.nextCursor.None? ==> Collected(session, Some(c)) == page.items && LastRead(session, Some(c)) == 0)
            && (page.nextCursor.Some? && |session| == 1 ==>
                  Collected(session, Some(c)) == page.items && LastRead(session, Some(c)) == 1)
            && (page.nextCursor.Some? ==>
                  Collected(session, Some(c)) == page.items + Collected(session[1..], page.nextCursor) &&
                  LastRead(session, Some(c)) == 1 + LastRead(session[1..], page.nextCursor))
  {
  }

  lemma FirstPage(session: seq<Read>, c: nat)
    requires Growing(session) && session != [] && c <= |session[0].log|
    ensures var log, page := session[0].log, PageOf(session[0].log, Some(c), session[0].limit);
            match page.nextCursor
            case None => page.items == log[c..]
            case Some(to) => c < to <= |log| && page.items == log[c..to] && |page.items| > 0
  {
  }

  /** Stable pagination: following next_cursor to the end while messages are being appended returns
      the log exactly as it was at the last read, each message once and in order; cut short, it returns
      a prefix, at least one message per read. */
  lemma FollowingTheCursor(session: seq<Read>)
    requires Growing(session) && session != []
    ensures var k := LastRead(session, None);
            if k < |session| then Collected(session, None) == session[k].log
            else Collected(session, None) <= session[|session| - 1].log && |Collected(session, None)| >= |session|
  {
    assert PageOf(session[0].log, None, session[0].limit) == PageOf(session[0].log, Some(0), session[0].limit);
    assert Collected(session, None) == Collected(session, Some(0)) && LastRead(session, None) == LastRead(session, Some(0));
    CollectedFrom(session, 0, Collected(session, None), LastRead(session, None));
    var k := LastRead(session, None);
    if k < |session| { assert session[k].log[0..] == session[k].log; }
  }
}
