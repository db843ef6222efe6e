/** The session's message buffer, trimmed to a token budget as messages arrive,
    and the dump and reload of a session's history. */
module Sessions {
  import opened Wrappers

  const DEFAULT_BUFFER_TOKENS: int := 4096

  datatype Message = Message(role: string, content: string)

  type Tokenizer = string -> int

  // ---------- budgets ----------

  function Tokens(msgs: seq<Message>, tk: Tokenizer): int {
    if msgs == [] then 0 else tk(msgs[0].content) + Tokens(msgs[1..], tk)
  }

  ghost predicate NonNegative(tk: Tokenizer) {
    forall s :: tk(s) >= 0
  }

  lemma {:induction false} TokensAppend(a: seq<Message>, b: seq<Message>, tk: Tokenizer)
    ensures Tokens(a + b, tk) == Tokens(a, tk) + Tokens(b, tk)
    decreases |a|
  {
    if a == [] {
      assert a + b == b;
    } else {
      assert (a + b)[1..] == a[1..] + b;
      TokensAppend(a[1..], b, tk);
    }
  }

  lemma {:induction false} TokensNonNegative(msgs: seq<Message>, tk: Tokenizer)
    requires NonNegative(tk)
    ensures Tokens(msgs, tk) >= 0
    decreases |msgs|
  {
    if msgs != [] {
      TokensNonNegative(msgs[1..], tk);
    }
  }

  // ---------- trimming as messages arrive ----------

  /** Drops the oldest message while the budget is exceeded and more than one is left. */
  function Trimmed(msgs: seq<Message>, budget: int, tk: Tokenizer): seq<Message>
    decreases |msgs|
  {
    if Tokens(msgs, tk) > budget && |msgs| > 1 then Trimmed(msgs[1..], budget, tk) else msgs
  }

  /** What is left ends with the last message, and fits unless that is alone. */
  lemma {:induction false} TrimmedEnds(msgs: seq<Message>, budget: int, tk: Tokenizer)
    requires msgs != []
    ensures var r := Trimmed(msgs, budget, tk);
            && r != [] && r[|r| - 1] == msgs[|msgs| - 1]
            && (|r| > 1 ==> Tokens(r, tk) <= budget)
            && (|r| == 2 ==> tk(r[0].content) + tk(r[1].content) <= budget)
    decreases |msgs|
  {
    if Tokens(msgs, tk) > budget && |msgs| > 1 {
      TrimmedEnds(msgs[1..], budget, tk);
    } else if |msgs| == 2 {
      assert msgs[1..][0] == msgs[1] && msgs[1..][1..] == [];
      assert Tokens(msgs[1..], tk) == tk(msgs[1].content) + Tokens([], tk);
    }
  }

  /** The buffer after every message of `all` was appended in turn. */
  function Online(all: seq<Message>, budget: int, tk: Tokenizer): seq<Message>
    decreases |all|
  {
    if all == [] then [] else Trimmed(Online(all[..|all| - 1], budget, tk) + [all[|all| - 1]], budget, tk)
  }

  // ---------- the same, looking at the whole history once ----------

  ghost predicate Fits(msgs: seq<Message>, budget: int, tk: Tokenizer) {
    Tokens(msgs, tk) <= budget
  }

  /** `r` is the longest suffix of `all` that fits the budget, or
      the last message alone when that does not. */
  ghost predicate IsWindow(r: seq<Message>, all: seq<Message>, budget: int, tk: Tokenizer) {
    exists i: nat :: WindowFrom(i, r, all, budget, tk)
  }

  ghost predicate WindowFrom(i: nat, r: seq<Message>, all: seq<Message>, budget: int, tk: Tokenizer) {
    && i <= |all| && r == all[i..]
    && (all != [] ==> r != [])
    && (Fits(r, budget, tk) || |r| <= 1)
    && forall j :: 0 <= j < i ==> !Fits(all[j..], budget, tk)
  }

  lemma {:induction false} TrimmedIsWindow(msgs: seq<Message>, budget: int, tk: Tokenizer) returns (i: nat)
    ensures WindowFrom(i, Trimmed(msgs, budget, tk), msgs, budget, tk)
    decreases |msgs|
  {
    if Tokens(msgs, tk) > budget && |msgs| > 1 {
      var k := TrimmedIsWindow(msgs[1..], budget, tk);
      i := k + 1;
      assert msgs[1..][k..] == msgs[i..];
      forall j | 0 <= j < i
        ensures !Fits(msgs[j..], budget, tk)
      {
        if j > 0 {
          assert msgs[1..][j - 1..] == msgs[j..];
        } else {
          assert msgs[0..] == msgs;
        }
      }
    } else {
      i := 0;
      assert msgs[0..] == msgs;
    }
  }

  /** With a tokenizer that counts nothing negatively, a suffix too long stays too long. */
  lemma SuffixTooLong(all: seq<Message>, m: Message, j: nat, budget: int, tk: Tokenizer)
    requires NonNegative(tk) && j <= |all| && !Fits(all[j..], budget, tk)
    ensures !Fits((all + [m])[j..], budget, tk)
  {
    assert (all + [m])[j..] == all[j..] + [m];
    TokensAppend(all[j..], [m], tk);
    TokensNonNegative([m], tk);
  }

  lemma {:induction false} OnlineWindow(all: seq<Message>, budget: int, tk: Tokenizer) returns (i: nat)
    requires NonNegative(tk)
    ensures WindowFrom(i, Online(all, budget, tk), all, budget, tk)
    decreases |all|
  {
    if all == [] {
      i := 0;
    } else {
      var n := |all| - 1;
      var before, m := all[..n], all[n];
      assert all == before + [m];
      var k := OnlineWindow(before, budget, tk);
      var msgs := before[k..] + [m];
      assert msgs == all[k..];
      var l := TrimmedIsWindow(msgs, budget, tk);
      i := k + l;
      assert msgs[l..] == all[i..];
      forall j | 0 <= j < i
        ensures !Fits(all[j..], budget, tk)
      {
        if j < k {
          SuffixTooLong(before, m, j, budget, tk);
        } else {
          assert msgs[j - k..] == all[j..];
        }
      }
    }
  }

  /** Two windows of the same history are the same window. */
  lemma WindowUnique(a: seq<Message>, b: seq<Message>, all: seq<Message>, budget: int, tk: Tokenizer)
    requires IsWindow(a, all, budget, tk) && IsWindow(b, all, budget, tk)
    ensures a == b
  {
    var i: nat :| WindowFrom(i, a, all, budget, tk);
    var j: nat :| WindowFrom(j, b, all, budget, tk);
  }

  ghost predicate AlwaysWindow(tk: Tokenizer) {
    forall all, budget :: IsWindow(Online(all, budget, tk), all, budget, tk)
  }

  /** A content of negative weight spoils it: three such messages fit a
      budget together that the first two exceed. */
  lemma NegativeSpoils(tk: Tokenizer, s: string)
    requires tk(s) < 0
    ensures var m := Message("", s);
            !IsWindow(Online([m, m, m], 3 * tk(s), tk), [m, m, m], 3 * tk(s), tk)
  {
    var m, w := Message("", s), tk(s);
    var all, budget := [m, m, m], 3 * tk(s);
    assert all[..2] == [m, m] && [m, m][..1] == [m] && [m][..0] == [];
    assert [] + [m] == [m] && [m] + [m] == [m, m];
    assert [m, m][1..] == [m] && all[1..] == [m, m];
    TokensAppend([m], [m], tk);
    TokensAppend([m, m], [m], tk);
    assert [m] + [m] == [m, m] && [m, m] + [m] == all;
    assert Tokens([m], tk) == w && Tokens([m, m], tk) == 2 * w && Tokens(all, tk) == 3 * w;
    assert Online([m], budget, tk) == [m];
    assert Online([m, m], budget, tk) == [m];
    assert Online(all, budget, tk) == [m];
    forall i: nat
      ensures !WindowFrom(i, [m], all, budget, tk)
    {
      if i == 2 {
        assert all[0..] == all;
      }
    }
  }

  /** Trimming as messages arrive gives the longest suffix that fits, for all
      histories and budgets, exactly when no content counts negatively. */
  lemma OnlineIsOfflineIff(tk: Tokenizer)
    ensures AlwaysWindow(tk) <==> NonNegative(tk)
  {
    if NonNegative(tk) {
      forall all, budget
        ensures IsWindow(Online(all, budget, tk), all, budget, tk)
      {
        var i := OnlineWindow(all, budget, tk);
      }
    } else {
      var s :| tk(s) < 0;
      NegativeSpoils(tk, s);
    }
  }

  // ---------- the default tokenizer ----------

  predicate IsSpace(c: char) {
    c == ' ' || c == '\t' || c == '\n' || c == '\r' || c == 11 as char || c == 12 as char
  }

  /** The number of maximal runs of non-space characters. */
  function Fields(s: string): nat {
    if s == "" then 0
    else if !IsSpace(s[0]) && (|s| == 1 || IsSpace(s[1])) then 1 + Fields(s[1..])
    else Fields(s[1..])
  }

  function DefaultTokenizer(s: string): (n: int)
    ensures n >= 0
  {
    if s == "" then 0 else Fields(s) + |s| / 4
  }

  /** The characters that separate words. */
  const GAPS: set<char> := {' ', '\t', '\n', '\r', '\U{000B}', '\U{000C}'}

  predicate WordStartsAt(s: string, k: nat)
    requires k < |s|
  {
    s[k] !in GAPS && (k == 0 || s[k - 1] in GAPS)
  }

  /** The places where a word starts. */
  function WordStarts(s: string): set<nat> {
    set k: nat | k < |s| && WordStartsAt(s, k)
  }

  lemma {:induction false} FieldsMore(s: string, c: char)
    ensures Fields(s + [c]) == Fields(s) + if !IsSpace(c) && (s == "" || IsSpace(s[|s| - 1])) then 1 else 0
    decreases |s|
  {
    if s == "" {
      assert s + [c] == [c] && [c][1..] == "";
    } else {
      assert (s + [c])[1..] == s[1..] + [c];
      FieldsMore(s[1..], c);
      if |s| == 1 {
        assert s[1..] == "";
      }
    }
  }

  lemma WordStartsMore(s: string, c: char)
    ensures WordStarts(s + [c]) == WordStarts(s) + if c !in GAPS && (s == "" || s[|s| - 1] in GAPS) then {|s|} else {}
  {
  }

  /** A word is counted for each place where one starts. */
  lemma {:induction false} FieldsAreWords(s: string)
    ensures Fields(s) == |WordStarts(s)|
    decreases |s|
  {
    if s != "" {
      var n := |s| - 1;
      assert s == s[..n] + [s[n]];
      FieldsAreWords(s[..n]);
      FieldsMore(s[..n], s[n]);
      WordStartsMore(s[..n], s[n]);
    }
  }

  /** The default tokenizer counts the words, and one more for every four characters. */
  lemma DefaultCounts(s: string)
    ensures DefaultTokenizer(s) == |WordStarts(s)| + |s| / 4
  {
    FieldsAreWords(s);
  }

  /** Texts put together with a space between them have the words of both. */
  lemma {:induction false} WordsAddUp(a: string, gap: char, b: string)
    requires gap in GAPS
    ensures |WordStarts(a + [gap] + b)| == |WordStarts(a)| + |WordStarts(b)|
    decreases |b|
  {
    if b == "" {
      assert a + [gap] + b == a + [gap];
      WordStartsMore(a, gap);
    } else {
      var n := |b| - 1;
      assert b == b[..n] + [b[n]];
      assert a + [gap] + b == (a + [gap] + b[..n]) + [b[n]];
      WordsAddUp(a, gap, b[..n]);
      WordStartsMore(b[..n], b[n]);
      WordStartsMore(a + [gap] + b[..n], b[n]);
    }
  }

  /** A text without spaces is one word. */
  lemma OneWord(s: string)
    requires s != "" && forall k :: 0 <= k < |s| ==> s[k] !in GAPS
    ensures DefaultTokenizer(s) == 1 + |s| / 4
  {
    DefaultCounts(s);
    assert WordStarts(s) == {0};
  }

  /** What the messages cost by that count. */
  function DefaultCost(msgs: seq<Message>): nat {
    if msgs == [] then 0
    else |WordStarts(msgs[0].content)| + |msgs[0].content| / 4 + DefaultCost(msgs[1..])
  }

  lemma {:induction false} DefaultTokens(msgs: seq<Message>)
    ensures Tokens(msgs, DefaultTokenizer) == DefaultCost(msgs)
    decreases |msgs|
  {
    if msgs != [] {
      DefaultCounts(msgs[0].content);
      DefaultTokens(msgs[1..]);
    }
  }

  // ---------- replay ----------

  /** Appending `msgs` to an empty buffer of budget `size` gives them back exactly
      when they fit it, or are no more than one. */
  lemma {:induction false} ReplayKeepsIff(msgs: seq<Message>, size: int, tk: Tokenizer)
    requires NonNegative(tk)
    ensures Online(msgs, size, tk) == msgs <==> |msgs| <= 1 || Fits(msgs, size, tk)
  {
    var i := OnlineWindow(msgs, size, tk);
    assert msgs[0..] == msgs;
  }

  function OrDefault(tokenizer: Option<Tokenizer>): Tokenizer {
    match tokenizer
    case None => DefaultTokenizer
    case Some(tk) => tk
  }

  class Buffer {
    var messages: seq<Message>
    const maxTokens: int
    const tokenizer: Tokenizer
    /** Everything appended since the buffer was last cleared. */
    ghost var appended: seq<Message>

    ghost predicate Valid()
      reads this
    {
      messages == Online(appended, maxTokens, tokenizer)
    }

    constructor (maxTokens: int, tokenizer: Option<Tokenizer>)
      ensures Valid() && messages == [] && appended == [] && this.maxTokens == maxTokens
      ensures tokenizer.None? ==> this.tokenizer == DefaultTokenizer
      ensures tokenizer.Some? ==> this.tokenizer == tokenizer.value
    {
      this.maxTokens := maxTokens;
      this.tokenizer := OrDefault(tokenizer);
      messages, appended := [], [];
    }

    method TokenCount() returns (total: int)
      ensures total == Tokens(messages, tokenizer)
    {
      total := 0;
      var i := 0;
      while i < |messages|
        invariant 0 <= i <= |messages| && total + Tokens(messages[i..], tokenizer) == Tokens(messages, tokenizer)
      {
        total := total + tokenizer(messages[i].content);
        assert messages[i..][1..] == messages[i + 1..];
        i := i + 1;
      }
    }

    method Trim()
      modifies `messages
      ensures messages == Trimmed(old(messages), maxTokens, tokenizer)
    {
      while true
        invariant Trimmed(messages, maxTokens, tokenizer) == Trimmed(old(messages), maxTokens, tokenizer)
        decreases |messages|
      {
        var total := TokenCount();
        if !(total > maxTokens && |messages| > 1) {
          break;
        }
        messages := messages[1..];
      }
    }

    method Append(msg: Message)
      requires Valid()
      modifies this
      ensures Valid() && appended == old(appended) + [msg]
      ensures NonNegative(tokenizer) ==> IsWindow(messages, appended, maxTokens, tokenizer)
      ensures messages != [] && messages[|messages| - 1] == msg
      ensures |messages| == 2 ==> tokenizer(messages[0].content) + tokenizer(messages[1].content) <= maxTokens
      ensures tokenizer == DefaultTokenizer && |messages| > 1 ==> DefaultCost(messages) <= maxTokens
    {
      messages := messages + [msg];
      appended := appended + [msg];
      Trim();
      assert appended[..|appended| - 1] == old(appended);
      if NonNegative(tokenizer) {
        var i := OnlineWindow(appended, maxTokens, tokenizer);
      }
      TrimmedEnds(old(messages) + [msg], maxTokens, tokenizer);
      DefaultTokens(messages);
    }

    method Clear()
      modifies this
      ensures Valid() && messages == [] && appended == []
    {
      messages, appended := [], [];
    }
  }

  // ---------- sessions ----------

  datatype LoadError = EmptyData | Undecodable | IdRequired | UserIdRequired | RestoreFailed

  type Metadata = map<string, string>

  /** The dumped state, the scheduler's and the time stamps left out. */
  datatype SessionState = SessionState(id: string, userID: string, metadata: Metadata, history: seq<Message>, bufferSize: int)

  /** The bytes handed to `Load`: none, no encoding of a state, or the encoding of one. */
  datatype Data = NoBytes | Garbled | Encoded(state: SessionState)

  /** Nothing but white space. */
  predicate Blank(s: string) {
    forall c :: c in s ==> IsSpace(c)
  }

  /** A text is blank exactly when no word starts in it. */
  lemma BlankIff(s: string)
    ensures Blank(s) <==> WordStarts(s) == {}
  {
    if !Blank(s) {
      var k := FirstLetter(s, 0);
      assert WordStartsAt(s, k) && k in WordStarts(s);
    } else {
      assert forall k :: 0 <= k < |s| ==> s[k] in s;
    }
  }

  /** The first character from `k` on that is no space. */
  lemma {:induction false} FirstLetter(s: string, k: nat) returns (i: nat)
    requires k <= |s| && !Blank(s[k..])
    ensures k <= i < |s| && s[i] !in GAPS && forall j :: k <= j < i ==> s[j] in GAPS
    decreases |s| - k
  {
    if !IsSpace(s[k]) {
      i := k;
    } else {
      assert s[k..] == [s[k]] + s[k + 1..];
      i := FirstLetter(s, k + 1);
    }
  }

  class Session {
    var id: string
    var userID: string
    var metadata: Metadata
    var history: Buffer?

    constructor (id: string, userID: string, metadata: Metadata, history: Buffer?)
      ensures this.id == id && this.userID == userID && this.metadata == metadata && this.history == history
    {
      this.id, this.userID, this.metadata, this.history := id, userID, metadata, history;
    }

    function BufferSize(): int
      reads this
    {
      if history == null || history.maxTokens <= 0 then DEFAULT_BUFFER_TOKENS else history.maxTokens
    }

    function HistoryMessages(): seq<Message>
      reads this, history
    {
      if history == null then [] else history.messages
    }

    method AddMessage(msg: Message)
      requires history != null ==> history.Valid()
      modifies this`history, history
      ensures history != null && history.Valid()
      ensures old(history) == null ==> fresh(history) && history.appended == [msg]
      ensures old(history) == null ==> history.maxTokens == 4096 && history.tokenizer == DefaultTokenizer
      ensures old(history) != null ==> history == old(history) && history.appended == old(history.appended) + [msg]
      ensures history.messages != [] && history.messages[|history.messages| - 1] == msg
      ensures history.tokenizer == DefaultTokenizer && |history.messages| > 1 ==>
                DefaultCost(history.messages) <= history.maxTokens
    {
      if history == null {
        history := new Buffer(DEFAULT_BUFFER_TOKENS, None);
      }
      history.Append(msg);
    }

    method NewConversation()
      modifies this`history, history
      ensures history != null && history.Valid() && history.messages == [] && history.appended == []
      ensures if old(history) == null then fresh(history) && history.maxTokens == 4096 && history.tokenizer == DefaultTokenizer
              else history == old(history)
    {
      if history == null {
        history := new Buffer(DEFAULT_BUFFER_TOKENS, None);
      } else {
        history.Clear();
      }
    }

    method Dump() returns (state: SessionState)
      ensures state == SessionState(id, userID, metadata, HistoryMessages(), BufferSize())
      ensures history == null ==> state.history == [] && state.bufferSize == 4096
      ensures history != null ==>
                state.history == history.messages && state.bufferSize == if history.maxTokens > 0 then history.maxTokens else 4096
    {
      state := SessionState(id, userID, metadata, HistoryMessages(), BufferSize());
    }

    /** Appends the dumped messages one by one to a new buffer. */
    method Replay(msgs: seq<Message>, size: int) returns (buffer: Buffer)
      ensures fresh(buffer) && buffer.Valid() && buffer.appended == msgs
      ensures buffer.maxTokens == size && buffer.tokenizer == DefaultTokenizer
      ensures |buffer.messages| > 1 ==> DefaultCost(buffer.messages) <= size
    {
      buffer := new Buffer(size, None);
      var i := 0;
      while i < |msgs|
        invariant 0 <= i <= |msgs| && buffer.Valid() && buffer.appended == msgs[..i]
        invariant |buffer.messages| > 1 ==> DefaultCost(buffer.messages) <= size
        modifies buffer
      {
        buffer.Append(msgs[i]);
        i := i + 1;
      }
    }

    /** `restored` says whether the scheduler accepts its part of the dump; its
        refusal comes last, when the rest of the session has been replaced. */
    method Load(data: Data, restored: bool) returns (err: Option<LoadError>)
      modifies this
      ensures err == match data
                     case NoBytes => Some(EmptyData)
                     case Garbled => Some(Undecodable)
                     case Encoded(state) =>
                       if Blank(state.id) then Some(IdRequired)
                       else if Blank(state.userID) then Some(UserIdRequired)
                       else if !restored then Some(RestoreFailed) else None
      ensures err.Some? && err != Some(RestoreFailed) ==>
                id == old(id) && userID == old(userID) && metadata == old(metadata) && history == old(history)
      ensures err == None || err == Some(RestoreFailed) ==>
                && id == data.state.id && userID == data.state.userID && metadata == data.state.metadata
                && history != null && fresh(history) && history.Valid()
                && history.appended == data.state.history && history.tokenizer == DefaultTokenizer
                && history.maxTokens == (if data.state.bufferSize <= 0 then 4096 else data.state.bufferSize)
                && (|history.messages| > 1 ==> DefaultCost(history.messages) <= history.maxTokens)
    {
      if data.NoBytes? {
        return Some(EmptyData);
      }
      if data.Garbled? {
        return Some(Undecodable);
      }
      var state := data.state;
      if Blank(state.id) {
        return Some(IdRequired);
      }
      if Blank(state.userID) {
        return Some(UserIdRequired);
      }
      if state.bufferSize <= 0 {
        state := state.(bufferSize := DEFAULT_BUFFER_TOKENS);
      }
      id, userID, metadata := state.id, state.userID, state.metadata;
      history := Replay(state.history, state.bufferSize);
      if !restored {
        return Some(RestoreFailed);
      }
      err := None;
    }
  }

  /** A history held under the default tokenizer, whatever its budget, fits the size it is
      dumped with, or is a single message: reloading gives it back. */
  lemma ReloadKeepsHistory(appended: seq<Message>, budget: int)
    ensures var msgs := Online(appended, budget, DefaultTokenizer);
            var size := if budget <= 0 then DEFAULT_BUFFER_TOKENS else budget;
            Online(msgs, size, DefaultTokenizer) == msgs
  {
    var i := OnlineWindow(appended, budget, DefaultTokenizer);
    var size := if budget <= 0 then DEFAULT_BUFFER_TOKENS else budget;
    ReplayKeepsIff(Online(appended, budget, DefaultTokenizer), size, DefaultTokenizer);
  }

  /** Dump one session and load the dump into another. */
  method Reload(from: Session, to: Session) returns (err: Option<LoadError>)
    requires from != to && (from.history != null ==> from.history.Valid())
    requires !Blank(from.id) && !Blank(from.userID)
    modifies to
    ensures err == None && to.history != null && to.id == from.id && to.userID == from.userID && to.metadata == from.metadata
    ensures from.history == null ==> to.history.messages == []
    ensures from.history != null ==>
              (to.history.messages == from.history.messages <==>
                 |from.history.messages| <= 1 || Fits(from.history.messages, from.BufferSize(), DefaultTokenizer))
    ensures from.history != null && from.history.tokenizer == DefaultTokenizer ==>
              to.history.messages == from.history.messages
  {
    var state := from.Dump();
    err := to.Load(Encoded(state), true);
    ReplayKeepsIff(state.history, state.bufferSize, DefaultTokenizer);
    if from.history != null && from.history.tokenizer == DefaultTokenizer {
      ReloadKeepsHistory(from.history.appended, from.history.maxTokens);
    }
  }
}
