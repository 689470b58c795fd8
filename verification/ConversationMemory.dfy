/** The memory service over its two tables: sessions, and one table of turns for all of them. */
module ConversationMemory {
  import opened Options
  import opened Conversations

  datatype SessionRow = SessionRow(summary: string, tokenCount: nat)

  /** A row of the turns table; its id is its position. */
  datatype TurnRow = TurnRow(session: string, turn: Turn, tokens: nat, folded: bool)

  /** `SELECT ... WHERE session_id = ? ORDER BY id`, over the first `n` rows. */
  function IdsOf(rows: seq<TurnRow>, session: string, n: nat): (ids: seq<nat>)
    requires n <= |rows|
    ensures forall i :: 0 <= i < |ids| ==> ids[i] < n && rows[ids[i]].session == session
  {
    if n == 0 then []
    else
      var before := IdsOf(rows, session, n - 1);
      if rows[n - 1].session == session then before + [n - 1] else before
  }

  /** ... `AND folded_at IS NULL` */
  function UnfoldedIds(rows: seq<TurnRow>, session: string, n: nat): (ids: seq<nat>)
    requires n <= |rows|
    ensures forall i :: 0 <= i < |ids| ==> ids[i] < n && rows[ids[i]].session == session && !rows[ids[i]].folded
  {
    if n == 0 then []
    else
      var before := UnfoldedIds(rows, session, n - 1);
      if rows[n - 1].session == session && !rows[n - 1].folded then before + [n - 1] else before
  }

  function TurnsAt(rows: seq<TurnRow>, ids: seq<nat>): (turns: seq<Turn>)
    requires forall i :: 0 <= i < |ids| ==> ids[i] < |rows|
    ensures |turns| == |ids| && forall i :: 0 <= i < |ids| ==> turns[i] == rows[ids[i]].turn
  {
    seq(|ids|, i requires 0 <= i < |ids| => rows[ids[i]].turn)
  }

  /** `UPDATE turns SET folded_at = ? WHERE id = ?`, for several ids. */
  function FoldRows(rows: seq<TurnRow>, ids: set<nat>): (r: seq<TurnRow>)
    ensures |r| == |rows|
    ensures forall i :: 0 <= i < |rows| ==> r[i] == rows[i].(folded := rows[i].folded || i in ids)
  {
    seq(|rows|, i requires 0 <= i < |rows| => rows[i].(folded := rows[i].folded || i in ids))
  }

  function Without(ids: seq<nat>, gone: set<nat>): seq<nat> {
    if ids == [] then []
    else
      var before := Without(ids[..|ids| - 1], gone);
      if ids[|ids| - 1] in gone then before else before + [ids[|ids| - 1]]
  }

  ghost predicate Ascending(ids: seq<nat>) {
    forall i, j :: 0 <= i < j < |ids| ==> ids[i] < ids[j]
  }

  lemma {:induction false} UnfoldedAscend(rows: seq<TurnRow>, session: string, n: nat)
    requires n <= |rows|
    ensures Ascending(UnfoldedIds(rows, session, n))
  {
    if n > 0 {
      UnfoldedAscend(rows, session, n - 1);
    }
  }

  lemma WithoutAppend(ids: seq<nat>, id: nat, gone: set<nat>)
    ensures Without(ids + [id], gone) == if id in gone then Without(ids, gone) else Without(ids, gone) + [id]
  {
    assert (ids + [id])[..|ids|] == ids;
  }

  lemma {:induction false} IdsAfterFold(rows: seq<TurnRow>, gone: set<nat>, session: string, n: nat)
    requires n <= |rows|
    ensures IdsOf(FoldRows(rows, gone), session, n) == IdsOf(rows, session, n)
    ensures UnfoldedIds(FoldRows(rows, gone), session, n) == Without(UnfoldedIds(rows, session, n), gone)
  {
    if n > 0 {
      IdsAfterFold(rows, gone, session, n - 1);
      WithoutAppend(UnfoldedIds(rows, session, n - 1), n - 1, gone);
      hide Without;
    }
  }

  lemma {:induction false} WithoutNone(ids: seq<nat>, gone: set<nat>)
    requires forall id :: id in ids ==> id !in gone
    ensures Without(ids, gone) == ids
  {
    if ids != [] {
      WithoutNone(ids[..|ids| - 1], gone);
      assert ids == ids[..|ids| - 1] + [ids[|ids| - 1]];
    }
  }

  function IdSet(ids: seq<nat>): set<nat> {
    set id | id in ids
  }

  /** Folding the first `k` of ascending ids leaves the rest. */
  lemma {:induction false} WithoutAPrefix(ids: seq<nat>, k: nat)
    requires Ascending(ids) && k <= |ids|
    ensures Without(ids, IdSet(ids[..k])) == ids[k..]
  {
    var gone := IdSet(ids[..k]);
    if k == |ids| {
      WithoutAll(ids, gone);
    } else {
      var shorter := ids[..|ids| - 1];
      WithoutAPrefix(shorter, k);
      assert shorter[..k] == ids[..k];
      assert ids[|ids| - 1] !in ids[..k];
    }
  }

  lemma {:induction false} WithoutAll(ids: seq<nat>, gone: set<nat>)
    requires forall id :: id in ids ==> id in gone
    ensures Without(ids, gone) == []
  {
    if ids != [] {
      WithoutAll(ids[..|ids| - 1], gone);
    }
  }

  // ---------------------------------------------------------------------------
  // One session's rows as a conversation.
  // ---------------------------------------------------------------------------

  function All(rows: seq<TurnRow>, session: string): seq<nat> {
    IdsOf(rows, session, |rows|)
  }

  function Open(rows: seq<TurnRow>, session: string): seq<nat> {
    UnfoldedIds(rows, session, |rows|)
  }

  /** A session's unfolded rows are its last ones. */
  predicate OpenIsSuffix(rows: seq<TurnRow>, session: string) {
    |Open(rows, session)| <= |All(rows, session)|
    && Open(rows, session) == All(rows, session)[|All(rows, session)| - |Open(rows, session)|..]
  }

  function ConversationOf(rows: seq<TurnRow>, session: string, tale: Tale): (c: Conversation)
    ensures c.folded <= |c.turns|
  {
    Conversation(TurnsAt(rows, All(rows, session)),
                 if |Open(rows, session)| <= |All(rows, session)| then |All(rows, session)| - |Open(rows, session)| else 0,
                 tale)
  }

  lemma OpenTurns(rows: seq<TurnRow>, session: string, tale: Tale)
    requires OpenIsSuffix(rows, session)
    ensures TurnsAt(rows, Open(rows, session)) == Unfolded(ConversationOf(rows, session, tale))
  {
  }

  lemma {:induction false} IdsOfPrefix(rows: seq<TurnRow>, row: TurnRow, session: string, n: nat)
    requires n <= |rows|
    ensures IdsOf(rows + [row], session, n) == IdsOf(rows, session, n)
    ensures UnfoldedIds(rows + [row], session, n) == UnfoldedIds(rows, session, n)
  {
    if n > 0 {
      IdsOfPrefix(rows, row, session, n - 1);
    }
  }

  lemma TurnsStay(rows: seq<TurnRow>, after: seq<TurnRow>, ids: seq<nat>)
    requires forall i :: 0 <= i < |ids| ==> ids[i] < |rows|
    requires |rows| <= |after| && forall i :: 0 <= i < |rows| ==> after[i].turn == rows[i].turn
    ensures TurnsAt(after, ids) == TurnsAt(rows, ids)
  {
  }

  lemma SuffixAfterAppend(all: seq<nat>, open: seq<nat>, id: nat)
    requires |open| <= |all| && open == all[|all| - |open|..]
    ensures open + [id] == (all + [id])[|all| - |open|..]
  {
  }

  lemma TurnsAtAppend(rows: seq<TurnRow>, ids: seq<nat>, id: nat)
    requires id < |rows| && forall i :: 0 <= i < |ids| ==> ids[i] < |rows|
    ensures TurnsAt(rows, ids + [id]) == TurnsAt(rows, ids) + [rows[id].turn]
  {
  }

  lemma InsertedMine(rows: seq<TurnRow>, row: TurnRow, tale: Tale)
    requires OpenIsSuffix(rows, row.session) && !row.folded
    ensures OpenIsSuffix(rows + [row], row.session)
    ensures var c := ConversationOf(rows, row.session, tale);
            ConversationOf(rows + [row], row.session, tale) == c.(turns := c.turns + [row.turn])
  {
    hide IdsOf, UnfoldedIds, TurnsAt;
    InsertedIds(rows, row, row.session);
    var all, open := All(rows, row.session), Open(rows, row.session);
    TurnsStay(rows, rows + [row], all);
    SuffixAfterAppend(all, open, |rows|);
    TurnsAtAppend(rows + [row], all, |rows|);
    hide All, Open;
  }

  lemma InsertedElsewhere(rows: seq<TurnRow>, row: TurnRow, session: string, tale: Tale)
    requires OpenIsSuffix(rows, session) && !row.folded && row.session != session
    ensures OpenIsSuffix(rows + [row], session)
    ensures ConversationOf(rows + [row], session, tale) == ConversationOf(rows, session, tale)
  {
    hide IdsOf, UnfoldedIds, TurnsAt;
    InsertedIds(rows, row, session);
    TurnsStay(rows, rows + [row], All(rows, session));
    hide All, Open;
  }

  lemma InsertedIds(rows: seq<TurnRow>, row: TurnRow, session: string)
    requires !row.folded
    ensures All(rows + [row], session) == if row.session == session then All(rows, session) + [|rows|] else All(rows, session)
    ensures Open(rows + [row], session) == if row.session == session then Open(rows, session) + [|rows|] else Open(rows, session)
  {
    IdsOfPrefix(rows, row, session, |rows|);
  }

  lemma FoldedIds(rows: seq<TurnRow>, session: string, k: nat, other: string)
    requires k <= |Open(rows, session)|
    ensures var after := FoldRows(rows, IdSet(Open(rows, session)[..k]));
            All(after, other) == All(rows, other)
            && Open(after, other) == if other == session then Open(rows, other)[k..] else Open(rows, other)
  {
    var gone := IdSet(Open(rows, session)[..k]);
    IdsAfterFold(rows, gone, other, |rows|);
    if other == session {
      UnfoldedAscend(rows, session, |rows|);
      WithoutAPrefix(Open(rows, session), k);
    } else {
      NotInOther(rows, session, k, other);
      WithoutNone(Open(rows, other), gone);
    }
  }

  lemma AllAreRows(rows: seq<TurnRow>, session: string)
    ensures forall i :: 0 <= i < |All(rows, session)| ==> All(rows, session)[i] < |rows|
  {
  }

  lemma FoldedRows(rows: seq<TurnRow>, session: string, k: nat, other: string, tale: Tale)
    requires OpenIsSuffix(rows, session) && OpenIsSuffix(rows, other) && k <= |Open(rows, session)|
    ensures var after := FoldRows(rows, IdSet(Open(rows, session)[..k]));
            var c := ConversationOf(rows, other, tale);
            OpenIsSuffix(after, other)
            && ConversationOf(after, other, tale) == if other == session then c.(folded := c.folded + k) else c
  {
    hide IdsOf, UnfoldedIds, TurnsAt, IdSet, All, Open, FoldRows;
    var after := FoldRows(rows, IdSet(Open(rows, session)[..k]));
    FoldedIds(rows, session, k, other);
    AllAreRows(rows, other);
    TurnsStay(rows, after, All(rows, other));
  }

  /** What folding the first `k` open rows of a session does to any session. */
  ghost predicate FoldsOnly(rows: seq<TurnRow>, after: seq<TurnRow>, session: string, k: nat, other: string) {
    && OpenIsSuffix(after, other) && All(after, other) == All(rows, other)
    && forall tale :: ConversationOf(after, other, tale)
                      == var c := ConversationOf(rows, other, tale); if other == session then c.(folded := c.folded + k) else c
  }

  lemma FoldingFoldsOnly(rows: seq<TurnRow>, session: string, k: nat, other: string)
    requires OpenIsSuffix(rows, session) && OpenIsSuffix(rows, other) && k <= |Open(rows, session)|
    ensures FoldsOnly(rows, FoldRows(rows, IdSet(Open(rows, session)[..k])), session, k, other)
  {
    FoldedIds(rows, session, k, other);
    forall tale {
      FoldedRows(rows, session, k, other, tale);
    }
    hide IdsOf, UnfoldedIds, OpenIsSuffix, ConversationOf;
  }

  lemma NotInOther(rows: seq<TurnRow>, session: string, k: nat, other: string)
    requires k <= |Open(rows, session)| && other != session
    ensures forall id :: id in Open(rows, other) ==> id !in IdSet(Open(rows, session)[..k])
  {
  }

  // ---------------------------------------------------------------------------
  // The service.
  // ---------------------------------------------------------------------------

  /** What the provider answers when asked to retell a summary with more turns; nothing when it
      fails. */
  type Provider = (string, seq<Turn>) -> Option<string>

  function Answer(llm: Provider, c: Conversation, keep: nat): Option<string>
    requires c.folded <= |c.turns|
  {
    if |Unfolded(c)| <= keep then None
    else llm(SummaryOf(c.tale), Unfolded(c)[..FoldCount(|Unfolded(c)|, keep)])
  }

  /** The two tables, and how each session's summary came about. */
  datatype Tables = Tables(sessions: map<string, SessionRow>, turns: seq<TurnRow>, tales: map<string, Tale>)

  ghost predicate SessionValid(t: Tables, session: string) {
    && OpenIsSuffix(t.turns, session)
    && (session in t.sessions <==> session in t.tales)
    && (session !in t.sessions ==> All(t.turns, session) == [])
    && (session in t.sessions ==> t.sessions[session].summary == SummaryOf(t.tales[session])
                                  && t.sessions[session].tokenCount == EstimateTokens(t.sessions[session].summary))
  }

  ghost predicate TablesValid(t: Tables) {
    && (forall i :: 0 <= i < |t.turns| ==> t.turns[i].tokens == EstimateTokens(t.turns[i].turn.content))
    && forall session :: SessionValid(t, session)
  }

  /** What the tables say about one session. */
  ghost function ViewOf(t: Tables, session: string): (c: Conversation)
    ensures c.folded <= |c.turns|
  {
    ConversationOf(t.turns, session, if session in t.tales then t.tales[session] else Nothing)
  }

  function Folded(t: Tables, session: string, k: nat, summary: string): Tables
    requires session in t.tales && k <= |Open(t.turns, session)|
  {
    var open := Open(t.turns, session);
    Tables(t.sessions[session := SessionRow(summary, EstimateTokens(summary))],
           FoldRows(t.turns, IdSet(open[..k])),
           t.tales[session := Retold(t.tales[session], TurnsAt(t.turns, open[..k]), summary)])
  }

  lemma FoldedElsewhere(t: Tables, session: string, k: nat, summary: string, other: string)
    requires SessionValid(t, session) && SessionValid(t, other) && other != session
    requires session in t.sessions && k <= |Open(t.turns, session)|
    ensures SessionValid(Folded(t, session, k, summary), other)
    ensures ViewOf(Folded(t, session, k, summary), other) == ViewOf(t, other)
  {
    hide OpenIsSuffix, ConversationOf;
    FoldingFoldsOnly(t.turns, session, k, other);
    hide All, Open, FoldRows, TurnsAt, IdSet;
  }

  lemma FoldedMine(t: Tables, session: string, k: nat, summary: string)
    requires SessionValid(t, session) && session in t.sessions && k <= |Open(t.turns, session)|
    ensures SessionValid(Folded(t, session, k, summary), session)
    ensures var c := ViewOf(t, session);
            k <= |Unfolded(c)|
            && ViewOf(Folded(t, session, k, summary), session)
               == Conversation(c.turns, c.folded + k, Retold(c.tale, Unfolded(c)[..k], summary))
  {
    OpenTurns(t.turns, session, t.tales[session]);
    FoldingFoldsOnly(t.turns, session, k, session);
    hide OpenIsSuffix, All, Open;
    TurnsAtPrefix(t.turns, Open(t.turns, session), k);
    hide FoldRows, TurnsAt, IdSet, ConversationOf;
  }

  lemma TurnsAtPrefix(rows: seq<TurnRow>, ids: seq<nat>, k: nat)
    requires k <= |ids| && forall i :: 0 <= i < |ids| ==> ids[i] < |rows|
    ensures TurnsAt(rows, ids[..k]) == TurnsAt(rows, ids)[..k]
  {
  }

  lemma FoldedTables(t: Tables, session: string, k: nat, summary: string)
    requires TablesValid(t) && session in t.sessions && k <= |Open(t.turns, session)|
    ensures session in t.tales && TablesValid(Folded(t, session, k, summary))
    ensures forall other :: other != session ==> ViewOf(Folded(t, session, k, summary), other) == ViewOf(t, other)
    ensures var c := ViewOf(t, session);
            k <= |Unfolded(c)|
            && ViewOf(Folded(t, session, k, summary), session)
               == Conversation(c.turns, c.folded + k, Retold(c.tale, Unfolded(c)[..k], summary))
  {
    assert SessionValid(t, session);
    FoldedMine(t, session, k, summary);
    forall other | other != session ensures SessionValid(Folded(t, session, k, summary), other)
      ensures ViewOf(Folded(t, session, k, summary), other) == ViewOf(t, other)
    {
      assert SessionValid(t, other);
      FoldedElsewhere(t, session, k, summary, other);
    }
    hide SessionValid, ViewOf, Open;
  }

  /** A session row if there was none, and a new turn row. */
  function Inserted(t: Tables, session: string, turn: Turn): Tables {
    Tables(if session in t.sessions then t.sessions else t.sessions[session := SessionRow("", 0)],
           t.turns + [TurnRow(session, turn, EstimateTokens(turn.content), false)],
           if session in t.tales then t.tales else t.tales[session := Nothing])
  }

  lemma InsertedView(t: Tables, session: string, turn: Turn, other: string)
    requires OpenIsSuffix(t.turns, other) && (other in t.sessions <==> other in t.tales)
    ensures OpenIsSuffix(Inserted(t, session, turn).turns, other)
    ensures var c := ViewOf(t, other);
            ViewOf(Inserted(t, session, turn), other) == if other == session then c.(turns := c.turns + [turn]) else c
  {
    var row := TurnRow(session, turn, EstimateTokens(turn.content), false);
    if other == session {
      InsertedMine(t.turns, row, ViewOf(t, other).tale);
      hide OpenIsSuffix, ConversationOf;
    } else {
      InsertedElsewhere(t.turns, row, other, ViewOf(t, other).tale);
      hide OpenIsSuffix, ConversationOf;
    }
  }

  lemma InsertedSession(t: Tables, session: string, turn: Turn, other: string)
    requires SessionValid(t, other)
    ensures SessionValid(Inserted(t, session, turn), other)
    ensures var c := ViewOf(t, other);
            ViewOf(Inserted(t, session, turn), other) == if other == session then c.(turns := c.turns + [turn]) else c
  {
    hide OpenIsSuffix, ViewOf, All, Open;
    InsertedView(t, session, turn, other);
    InsertedIds(t.turns, TurnRow(session, turn, EstimateTokens(turn.content), false), other);
  }

  lemma InsertedTables(t: Tables, session: string, turn: Turn)
    requires TablesValid(t)
    ensures TablesValid(Inserted(t, session, turn))
    ensures forall other :: ViewOf(Inserted(t, session, turn), other)
                            == var c := ViewOf(t, other); if other == session then c.(turns := c.turns + [turn]) else c
  {
    forall other ensures SessionValid(Inserted(t, session, turn), other)
      ensures ViewOf(Inserted(t, session, turn), other)
              == var c := ViewOf(t, other); if other == session then c.(turns := c.turns + [turn]) else c
    {
      assert SessionValid(t, other);
      InsertedSession(t, session, turn, other);
    }
    hide SessionValid, ViewOf;
  }

  function TurnsIn(rows: seq<TurnRow>): (turns: seq<Turn>)
    ensures |turns| == |rows| && forall i :: 0 <= i < |rows| ==> turns[i] == rows[i].turn
  {
    seq(|rows|, i requires 0 <= i < |rows| => rows[i].turn)
  }

  predicate Estimated(rows: seq<TurnRow>) {
    forall i :: 0 <= i < |rows| ==> rows[i].tokens == EstimateTokens(rows[i].turn.content)
  }

  function LastTurns(rows: seq<TurnRow>, i: nat): seq<Turn>
    requires i <= |rows|
  {
    TurnsIn(rows)[i..]
  }

  lemma NoRows(rows: seq<TurnRow>)
    ensures LastTurns(rows, |rows|) == [] && TokensOf([]) == 0
  {
  }

  lemma OneMoreRow(rows: seq<TurnRow>, i: nat)
    requires Estimated(rows) && i < |rows|
    ensures LastTurns(rows, i) == [rows[i].turn] + LastTurns(rows, i + 1)
    ensures TokensOf(LastTurns(rows, i)) == rows[i].tokens + TokensOf(LastTurns(rows, i + 1))
  {
    TokensOfSuffix(TurnsIn(rows), i);
  }

  lemma LastTurnsAreLongest(rows: seq<TurnRow>, i: nat, room: nat)
    requires Estimated(rows) && i <= |rows| && TokensOf(LastTurns(rows, i)) <= room
    requires i > 0 ==> TokensOf(LastTurns(rows, i)) + rows[i - 1].tokens > room
    ensures LongestFitting(TurnsIn(rows), room, LastTurns(rows, i))
  {
    if i > 0 {
      OneMoreRow(rows, i - 1);
    }
    SuffixIsLongest(TurnsIn(rows), i, room);
  }

  /** Newest first until one does not fit; handed back oldest first. */
  method PickRecent(rows: seq<TurnRow>, room: nat) returns (recent: seq<Turn>)
    requires Estimated(rows)
    ensures LongestFitting(TurnsIn(rows), room, recent)
  {
    hide *;
    NoRows(rows);
    var i := |rows|;
    var running := 0;
    recent := [];
    while i > 0 && running + rows[i - 1].tokens <= room
      invariant 0 <= i <= |rows| && running <= room
      invariant recent == LastTurns(rows, i) && running == TokensOf(LastTurns(rows, i))
    {
      i := i - 1;
      OneMoreRow(rows, i);
      running := running + rows[i].tokens;
      recent := [rows[i].turn] + recent;
    }
    LastTurnsAreLongest(rows, i, room);
  }

  class MemoryService {
    const tokenBudget: int
    const keep: nat
    var sessions: map<string, SessionRow>
    var turns: seq<TurnRow>
    ghost var tales: map<string, Tale>

    constructor (tokenBudget: int, keep: nat)
      ensures this.tokenBudget == tokenBudget && this.keep == keep
      ensures Valid() && forall session :: View(session) == EMPTY
    {
      this.tokenBudget, this.keep := tokenBudget, keep;
      sessions, turns, tales := map[], [], map[];
      new;
      assert forall session :: SessionValid(State(), session);
    }

    ghost function State(): Tables
      reads this
    {
      Tables(sessions, turns, tales)
    }

    ghost predicate Valid()
      reads this
    {
      TablesValid(State())
    }

    ghost function View(session: string): (c: Conversation)
      reads this
      ensures c.folded <= |c.turns|
    {
      ViewOf(State(), session)
    }

    method FetchUnfolded(session: string) returns (ids: seq<nat>)
      ensures ids == Open(turns, session)
    {
      ids := [];
      for n := 0 to |turns|
        invariant ids == UnfoldedIds(turns, session, n)
      {
        if turns[n].session == session && !turns[n].folded {
          ids := ids + [n];
        }
      }
    }

    method SumTokens(ids: seq<nat>) returns (total: nat)
      requires Valid() && forall i :: 0 <= i < |ids| ==> ids[i] < |turns|
      ensures total == TokensOf(TurnsAt(turns, ids))
    {
      total := 0;
      ghost var all := TurnsAt(turns, ids);
      for n := 0 to |ids|
        invariant total + TokensOf(all[n..]) == TokensOf(all)
      {
        assert all[n..][1..] == all[n + 1..];
        total := total + turns[ids[n]].tokens;
      }
    }

    /** A known session's open rows are the unfolded turns of its conversation. */
    lemma OpenRows(session: string)
      requires Valid()
      ensures TurnsAt(turns, Open(turns, session)) == Unfolded(View(session))
      ensures session in sessions <==> session in tales
      ensures session !in sessions ==> View(session) == EMPTY
      ensures session in sessions ==> sessions[session].summary == SummaryOf(View(session).tale)
                                      && sessions[session].tokenCount == EstimateTokens(sessions[session].summary)
    {
      assert SessionValid(State(), session);
      OpenTurns(turns, session, View(session).tale);
    }

    method CheckNeedsSummary(session: string) returns (needed: bool)
      requires Valid()
      ensures needed <==> session in sessions && NeedsSummary(View(session), tokenBudget, keep)
    {
      OpenRows(session);
      if session !in sessions {
        return false;
      }
      var rows := FetchUnfolded(session);
      var turnTokens := SumTokens(rows);
      needed := sessions[session].tokenCount + turnTokens > tokenBudget && |rows| > keep;
    }

    /** Folds all but the last `keep` unfolded turns; when the provider fails nothing changes. */
    method SummarizeSession(session: string, llm: Provider) returns (summary: Option<string>)
      requires Valid()
      modifies this
      ensures Valid()
      ensures View(session) == Summarised(old(View(session)), keep, Answer(llm, old(View(session)), keep))
      ensures forall other :: other != session ==> View(other) == old(View(other))
      ensures summary.None? <==> |Unfolded(old(View(session)))| > keep && Answer(llm, old(View(session)), keep).None?
    {
      OpenRows(session);
      if session !in sessions {
        return Some("");
      }
      var rows := FetchUnfolded(session);
      if |rows| <= keep {
        return Some(sessions[session].summary);
      }
      var k := FoldCount(|rows|, keep);
      assert TurnsAt(turns, rows[..k]) == Unfolded(View(session))[..k];
      summary := llm(sessions[session].summary, TurnsAt(turns, rows[..k]));
      if summary.Some? {
        FoldedTables(State(), session, k, summary.value);
        hide ViewOf, TablesValid;
        tales := tales[session := Retold(tales[session], TurnsAt(turns, rows[..k]), summary.value)];
        sessions := sessions[session := SessionRow(summary.value, EstimateTokens(summary.value))];
        turns := FoldRows(turns, IdSet(rows[..k]));
      }
    }

    /** Inserts a turn and summarises if the session has outgrown the budget. The turn stays even
        when the provider fails. */
    method AppendTurn(session: string, turn: Turn, llm: Provider) returns (failed: bool)
      requires Valid()
      modifies this
      ensures Valid()
      ensures var before := old(View(session));
              var longer := before.(turns := before.turns + [turn]);
              View(session) == Appended(before, turn, tokenBudget, keep, Answer(llm, longer, keep))
              && (failed <==> NeedsSummary(longer, tokenBudget, keep) && Answer(llm, longer, keep).None?)
      ensures forall other :: other != session ==> View(other) == old(View(other))
    {
      InsertedTables(State(), session, turn);
      hide ViewOf, TablesValid;
      if session !in sessions {
        sessions := sessions[session := SessionRow("", 0)];
      }
      ghost var known := session in tales;
      tales := if known then tales else tales[session := Nothing];
      turns := turns + [TurnRow(session, turn, EstimateTokens(turn.content), false)];
      failed := false;
      var needed := CheckNeedsSummary(session);
      if needed {
        var summary := SummarizeSession(session, llm);
        failed := summary.None?;
      }
    }

    /** The summary, and the newest unfolded turns that fit beside it. */
    method GetContext(session: string, budget: int) returns (summary: string, recent: seq<Turn>)
      requires Valid()
      ensures summary == SummaryOf(View(session).tale)
      ensures LongestFitting(Unfolded(View(session)), Room(View(session), budget), recent)
    {
      OpenRows(session);
      if session !in sessions {
        return "", [];
      }
      summary := sessions[session].summary;
      var rows := FetchUnfolded(session);
      var room := if budget - sessions[session].tokenCount > 0 then budget - sessions[session].tokenCount else 0;
      var fetched := seq(|rows|, i requires 0 <= i < |rows| && rows[i] < |turns| reads this => turns[rows[i]]);
      assert TurnsIn(fetched) == TurnsAt(turns, rows);
      recent := PickRecent(fetched, room);
    }
  }
}
