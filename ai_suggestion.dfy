/**
 * The AI suggestion hook: a state record updated through React `setState`
 * updaters (toggle, fetch start and completion, reject, clear, accept).
 */
module AiSuggestion {
  import opened Wrappers
  import opened JsStrings

  /** A 1-based editor position (`lineNumber`, `column`). */
  datatype Position = Position(line: int, column: int)

  /** `AISuggestionsState`. */
  datatype State = State(
    suggestion: Option<string>,
    isLoading: bool,
    position: Option<Position>,
    decoration: seq<string>,
    isEnabled: bool)

  /** The editor as `fetchSuggestion` sees it: its text model and cursor, each possibly missing. */
  datatype Editor = Editor(model: Option<string>, cursor: Option<Position>)

  /** The body posted to the code-suggestion endpoint; the cursor is 0-based. */
  datatype Payload = Payload(fileContent: string, cursorLine: int, cursorColumn: int, suggestionType: string)

  /** A request in flight: its payload and the 1-based cursor captured when it was sent. */
  datatype Request = Request(payload: Payload, sentAt: Position)

  /** The state the hook starts in. */
  function InitialState(): (s: State)
    ensures s.suggestion.None? && s.position.None? && s.decoration == []
    ensures !s.isLoading && s.isEnabled
  {
    State(None, false, None, [], true)
  }

  /** `toggleEnabled`'s updater: flips `isEnabled`, keeps every other field. */
  function ToggleUpdate(s: State): (r: State)
    ensures r.isEnabled == !s.isEnabled
    ensures r.suggestion == s.suggestion && r.isLoading == s.isLoading
    ensures r.position == s.position && r.decoration == s.decoration
  {
    s.(isEnabled := !s.isEnabled)
  }

  /** Toggling twice restores the state. */
  lemma ToggleTwice(s: State)
    ensures ToggleUpdate(ToggleUpdate(s)) == s
  {
  }

  /** `fetchSuggestion`'s checks: suggestions are enabled and the editor,
      its model and its cursor are all present. */
  predicate FetchGatePasses(s: State, editor: Option<Editor>) {
    s.isEnabled && editor.Some? && editor.value.model.Some? && editor.value.cursor.Some?
  }

  /** How a `setState` updater ends: it returns the next state, or it throws
      a `TypeError` (whose engine-specific text is not modelled). */
  datatype Updated = Returns(state: State) | ThrowsTypeError

  /** `fetchSuggestion`'s updater as written. No statement ends the
      `const newState = {...}` line, and the next statement starts with
      `(`, so the object literal is called with the async function as its
      argument. Past the checks the updater therefore throws a `TypeError`:
      it never builds a next state, and the request is never sent. When a
      check fails, it returns the state unchanged. */
  function FetchStartUpdate(s: State, kind: string, editor: Option<Editor>): (r: Updated)
    ensures r.ThrowsTypeError? <==> FetchGatePasses(s, editor)
    ensures r.Returns? ==> r.state == s
  {
    if !s.isEnabled then Returns(s)
    else if editor.None? then Returns(s)
    else if editor.value.model.None? || editor.value.cursor.None? then Returns(s)
    else ThrowsTypeError
  }

  /** What the fetch updater was evidently meant to do: nothing when
      suggestions are disabled or the editor, its model or its cursor is
      missing; otherwise issue the request and set only `isLoading`. */
  function FetchStartUpdateIntended(s: State, kind: string, editor: Option<Editor>): (r: (State, Option<Request>))
    ensures r.1.None? <==> !s.isEnabled || editor.None? || editor.value.model.None? || editor.value.cursor.None?
    ensures r.1.None? ==> r.0 == s
    ensures r.1.Some? ==> r.0 == s.(isLoading := true)
    ensures r.1.Some? ==>
      var cursor := editor.value.cursor.value;
      && r.1.value.sentAt == cursor
      && r.1.value.payload.fileContent == editor.value.model.value
      && r.1.value.payload.cursorLine + 1 == cursor.line
      && r.1.value.payload.cursorColumn + 1 == cursor.column
      && r.1.value.payload.suggestionType == kind
  {
    if !s.isEnabled then (s, None)
    else if editor.None? then (s, None)
    else if editor.value.model.None? || editor.value.cursor.None? then (s, None)
    else
      var cursor := editor.value.cursor.value;
      var payload := Payload(editor.value.model.value, cursor.line - 1, cursor.column - 1, kind);
      (s.(isLoading := true), Some(Request(payload, cursor)))
  }

  /** The updater applied when the request settles. `response` is the body's
      `suggestion` field; `None` also stands for a failed request, a status
      that is not ok, or a body that could not be read. A truthy suggestion
      is stored trimmed, anchored at the send-time cursor; anything else only
      clears `isLoading`. `isEnabled` is not consulted. */
  function FetchCompleteUpdate(s: State, sentAt: Position, response: Option<string>): (r: State)
    ensures !r.isLoading
    ensures r.isEnabled == s.isEnabled && r.decoration == s.decoration
    ensures Truthy(response) ==> r.suggestion == Some(Trim(response.value)) && r.position == Some(sentAt)
    ensures !Truthy(response) ==> r == s.(isLoading := false)
  {
    if Truthy(response) then
      s.(suggestion := Some(Trim(response.value)), position := Some(sentAt), isLoading := false)
    else
      s.(isLoading := false)
  }

  /** The updater as written throws exactly when the intended one would send
      a request, and otherwise returns what the intended one returns. So as
      written no request is ever sent and `isLoading` is never set. */
  lemma FetchStartNeverSends(s: State, kind: string, editor: Option<Editor>)
    ensures FetchStartUpdate(s, kind, editor).ThrowsTypeError?
      <==> FetchStartUpdateIntended(s, kind, editor).1.Some?
    ensures FetchStartUpdate(s, kind, editor).Returns? ==>
      FetchStartUpdateIntended(s, kind, editor) == (FetchStartUpdate(s, kind, editor).state, None)
  {
  }

  /** A response that arrives after suggestions were switched off is applied
      all the same: the completion updater gives the same result whatever
      `isEnabled` holds. */
  lemma CompletionIgnoresEnabled(s: State, sentAt: Position, response: Option<string>, enabled: bool)
    ensures FetchCompleteUpdate(s.(isEnabled := enabled), sentAt, response)
         == FetchCompleteUpdate(s, sentAt, response).(isEnabled := enabled)
  {
  }

  /** The intended start, then completion: the state goes back to not loading, and the
      suggestion is either the trimmed response at the send-time cursor or
      what it was before the fetch. */
  lemma {:induction false} FetchRoundTrip(s: State, kind: string, editor: Option<Editor>, response: Option<string>)
    requires !s.isLoading
    requires FetchStartUpdateIntended(s, kind, editor).1.Some?
    ensures var (started, request) := FetchStartUpdateIntended(s, kind, editor);
      var done := FetchCompleteUpdate(started, request.value.sentAt, response);
      && started.isLoading
      && (Truthy(response) ==> done == s.(suggestion := Some(Trim(response.value)), position := editor.value.cursor)
                               && done.position.value.line == request.value.payload.cursorLine + 1)
      && (!Truthy(response) ==> done == s)
  {
  }

  /** The updater shared by `rejectSuggestion` and `clearSuggestion`: drops the
      suggestion, its position and its decorations, and keeps `isLoading` and
      `isEnabled`. `removed` are the decorations handed to `deltaDecorations`:
      all of them when an editor is given and there are any, else none. */
  function DismissUpdate(s: State, hasEditor: bool): (r: (State, seq<string>))
    ensures r.0.suggestion.None? && r.0.position.None? && r.0.decoration == []
    ensures r.0.isLoading == s.isLoading && r.0.isEnabled == s.isEnabled
    ensures r.1 == (if hasEditor then s.decoration else [])
  {
    var removed := if hasEditor && |s.decoration| > 0 then s.decoration else [];
    (s.(suggestion := None, position := None, decoration := []), removed)
  }

  /** Dismissing twice is dismissing once, and the second call removes no decorations. */
  lemma DismissIdempotent(s: State, hasEditor: bool)
    ensures DismissUpdate(DismissUpdate(s, hasEditor).0, hasEditor) == (DismissUpdate(s, hasEditor).0, [])
  {
  }

  // ---------------------------------------------------------------------------
  // acceptSuggestion
  // ---------------------------------------------------------------------------

  /** `acceptSuggestion` as written: its callback only creates an inner arrow
      function and never calls it, so the state is returned untouched and no
      edit is made. */
  function AcceptUpdate(s: State, hasEditor: bool, hasMonaco: bool): (r: (State, Option<Edit>))
    ensures r.0 == s && r.1.None?
  {
    (s, None)
  }

  /** A text edit: insert `text` at the empty range at `at`. */
  datatype Edit = Edit(at: Position, text: string)

  /** `^` of a multiline pattern matches at `i`: at the start, or right after a line terminator. */
  predicate AtLineStart(s: string, i: nat)
    requires i <= |s|
  {
    i == 0 || IsLineTerminator(s[i - 1])
  }

  /** The number of digits starting at `i`. */
  function DigitRun(s: string, i: nat): (n: nat)
    requires i <= |s|
    ensures i + n <= |s|
    decreases |s| - i
  {
    if i < |s| && IsDigit(s[i]) then 1 + DigitRun(s, i + 1) else 0
  }

  /** The run is all digits and stops at the end or at a non-digit. */
  lemma {:induction false} DigitRunMaximal(s: string, i: nat)
    requires i <= |s|
    ensures forall k :: i <= k < i + DigitRun(s, i) ==> IsDigit(s[k])
    ensures i + DigitRun(s, i) == |s| || !IsDigit(s[i + DigitRun(s, i)])
    decreases |s| - i
  {
    if i < |s| && IsDigit(s[i]) {
      DigitRunMaximal(s, i + 1);
    }
  }

  /** The number of whitespace characters starting at `i`. */
  function WhitespaceRun(s: string, i: nat): (n: nat)
    requires i <= |s|
    ensures i + n <= |s|
    decreases |s| - i
  {
    if i < |s| && IsWhitespace(s[i]) then 1 + WhitespaceRun(s, i + 1) else 0
  }

  /** The run is all whitespace and stops at the end or at a non-whitespace character. */
  lemma {:induction false} WhitespaceRunMaximal(s: string, i: nat)
    requires i <= |s|
    ensures forall k :: i <= k < i + WhitespaceRun(s, i) ==> IsWhitespace(s[k])
    ensures i + WhitespaceRun(s, i) == |s| || !IsWhitespace(s[i + WhitespaceRun(s, i)])
    decreases |s| - i
  {
    if i < |s| && IsWhitespace(s[i]) {
      WhitespaceRunMaximal(s, i + 1);
    }
  }

  /** The length of the match at `i` of the multiline pattern `^\d+:\s*`, or 0 when there is none there. */
  function LinePrefixAt(s: string, i: nat): (n: nat)
    requires i <= |s|
    ensures i + n <= |s|
    ensures n == 0 || n >= 2
  {
    if !AtLineStart(s, i) then 0
    else
      var d := DigitRun(s, i);
      if d > 0 && i + d < |s| && s[i + d] == ':' then d + 1 + WhitespaceRun(s, i + d + 1) else 0
  }

  /** Replacing every match of the global multiline pattern `^\d+:\s*` by "" in
      `s[i..]`, reading `^` against the whole of `s`. */
  function SanitizeFrom(s: string, i: nat): (r: string)
    requires i <= |s|
    ensures |r| <= |s| - i
    decreases |s| - i
  {
    if i == |s| then []
    else
      var m := LinePrefixAt(s, i);
      if m > 0 then SanitizeFrom(s, i + m)
      else [s[i]] + SanitizeFrom(s, i + 1)
  }

  /** The suffix from `i` is left unchanged exactly when no line prefix starts in it. */
  lemma {:induction false} SanitizeFromUnchanged(s: string, i: nat)
    requires i <= |s|
    ensures SanitizeFrom(s, i) == s[i..] <==> forall k :: i <= k < |s| ==> LinePrefixAt(s, k) == 0
    decreases |s| - i
  {
    if i < |s| {
      if LinePrefixAt(s, i) > 0 {
        UnfoldPrefixStep(s, i);
        assert |SanitizeFrom(s, i)| < |s[i..]|;
      } else {
        UnfoldCharStep(s, i);
        SliceSplit(s, i, i + 1);
        SanitizeFromUnchanged(s, i + 1);
        PrependCancels(s[i..i + 1], SanitizeFrom(s, i + 1), s[i + 1..]);
      }
    }
  }

  lemma PrependCancels(x: string, a: string, b: string)
    ensures x + a == x + b <==> a == b
  {
    if x + a == x + b {
      assert a == (x + a)[|x|..] && b == (x + b)[|x|..];
    }
  }

  /** The sanitiser meant for an accepted suggestion: strips `digits ":" whitespace`
      at the start of every line. It leaves a string unchanged exactly when
      no line of it starts that way. */
  function Sanitize(s: string): (r: string)
    ensures |r| <= |s|
    ensures r == s <==> forall k :: 0 <= k < |s| ==> LinePrefixAt(s, k) == 0
  {
    SanitizeFromUnchanged(s, 0);
    SanitizeFrom(s, 0)
  }

  /** One step of `SanitizeSkip`: a character where no prefix starts is kept. */
  lemma SanitizeKeepStep(s: string, i: nat, j: nat)
    requires i < j <= |s| && LinePrefixAt(s, i) == 0
    requires SanitizeFrom(s, i + 1) == s[i + 1..j] + SanitizeFrom(s, j)
    ensures SanitizeFrom(s, i) == s[i..j] + SanitizeFrom(s, j)
  {
    var x, mid, tail := s[i], s[i + 1..j], SanitizeFrom(s, j);
    assert SanitizeFrom(s, i) == [x] + (mid + tail);
    assert s[i..j] == [x] + mid;
    assert [x] + (mid + tail) == ([x] + mid) + tail;
  }

  /** No line prefix starts at any of the positions `i` to `j - 1`. */
  predicate NoPrefixBetween(s: string, i: nat, j: nat)
    requires i <= j <= |s|
    decreases j - i
  {
    i == j || (LinePrefixAt(s, i) == 0 && NoPrefixBetween(s, i + 1, j))
  }

  /** A stretch where no line prefix starts is copied unchanged, in order. */
  lemma {:induction false} SanitizeSkip(s: string, i: nat, j: nat)
    requires i <= j <= |s|
    requires NoPrefixBetween(s, i, j)
    ensures SanitizeFrom(s, i) == s[i..j] + SanitizeFrom(s, j)
    decreases j - i
  {
    if i < j {
      SanitizeSkip(s, i + 1, j);
      SanitizeKeepStep(s, i, j);
    } else {
      assert s[i..j] == [];
    }
  }

  /** Past the first character of a single line, no line prefix starts. */
  lemma {:induction false} NoPrefixInsideLine(s: string, i: nat)
    requires 1 <= i <= |s|
    requires forall k :: 0 <= k < |s| ==> !IsLineTerminator(s[k])
    ensures NoPrefixBetween(s, i, |s|)
    decreases |s| - i
  {
    if i < |s| {
      assert !AtLineStart(s, i);
      NoPrefixInsideLine(s, i + 1);
    }
  }

  /** A single line loses exactly its leading `digits ":" whitespace`. */
  lemma SanitizeOneLine(s: string)
    requires forall k :: 0 <= k < |s| ==> !IsLineTerminator(s[k])
    ensures Sanitize(s) == s[LinePrefixAt(s, 0)..]
  {
    if s != [] {
      var m := LinePrefixAt(s, 0);
      var start := if m > 0 then m else 1;
      NoPrefixInsideLine(s, start);
      SanitizeSkip(s, start, |s|);
      assert s[start..|s|] == s[start..];
      if m == 0 {
        assert s == [s[0]] + s[1..];
      }
    }
  }

  /** The characters a line prefix is made of. */
  predicate Strippable(c: char) {
    IsDigit(c) || c == ':' || IsWhitespace(c)
  }

  /** A line prefix consists of strippable characters only. */
  lemma LinePrefixStrippable(s: string, i: nat)
    requires i <= |s|
    ensures AllStrippable(s[i..i + LinePrefixAt(s, i)])
  {
    if LinePrefixAt(s, i) > 0 {
      DigitRunMaximal(s, i);
      WhitespaceRunMaximal(s, i + DigitRun(s, i) + 1);
    }
  }

  predicate AllStrippable(p: string) {
    forall k :: 0 <= k < |p| ==> Strippable(p[k])
  }

  /** The characters `SanitizeFrom(s, i)` drops: the line prefixes found
      in `s[i..]`, in order. */
  function PrefixesFrom(s: string, i: nat): string
    requires i <= |s|
    decreases |s| - i
  {
    if i == |s| then []
    else
      var m := LinePrefixAt(s, i);
      if m > 0 then s[i..i + m] + PrefixesFrom(s, i + m)
      else PrefixesFrom(s, i + 1)
  }

  lemma SliceSplit(s: string, i: nat, j: nat)
    requires i <= j <= |s|
    ensures s[i..] == s[i..j] + s[j..]
  {
  }

  /** One unfolding of `PrefixesFrom` and `SanitizeFrom` where a line prefix starts. */
  lemma UnfoldPrefixStep(s: string, i: nat)
    requires i < |s| && LinePrefixAt(s, i) > 0
    ensures PrefixesFrom(s, i) == s[i..i + LinePrefixAt(s, i)] + PrefixesFrom(s, i + LinePrefixAt(s, i))
    ensures SanitizeFrom(s, i) == SanitizeFrom(s, i + LinePrefixAt(s, i))
  {
  }

  /** One unfolding of `PrefixesFrom` and `SanitizeFrom` where a character is kept. */
  lemma UnfoldCharStep(s: string, i: nat)
    requires i < |s| && LinePrefixAt(s, i) == 0
    ensures PrefixesFrom(s, i) == PrefixesFrom(s, i + 1)
    ensures SanitizeFrom(s, i) == s[i..i + 1] + SanitizeFrom(s, i + 1)
  {
  }

  /** The number of times `c` occurs in `x`. */
  function Occurrences(x: string, c: char): nat {
    if x == [] then 0 else (if x[0] == c then 1 else 0) + Occurrences(x[1..], c)
  }

  lemma {:induction false} OccurrencesAppend(x: string, y: string, c: char)
    ensures Occurrences(x + y, c) == Occurrences(x, c) + Occurrences(y, c)
  {
    if x == [] {
      assert x + y == y;
    } else {
      assert (x + y)[1..] == x[1..] + y;
      OccurrencesAppend(x[1..], y, c);
    }
  }

  lemma {:induction false} OccurrencesMultiplicity(x: string, c: char)
    ensures Occurrences(x, c) == multiset(x)[c]
  {
    if x != [] {
      assert x == [x[0]] + x[1..];
      OccurrencesMultiplicity(x[1..], c);
    }
  }

  lemma {:induction false} OccurrencesStrippable(p: string, c: char)
    requires AllStrippable(p) && !Strippable(c)
    ensures Occurrences(p, c) == 0
  {
    if p != [] {
      assert AllStrippable(p[1..]) by {
        assert forall k :: 0 <= k < |p[1..]| ==> p[1..][k] == p[k + 1];
      }
      OccurrencesStrippable(p[1..], c);
    }
  }

  /** Every character of the suffix is either kept or dropped, as often as it occurs. */
  lemma {:induction false} SanitizeFromSplits(s: string, i: nat, c: char)
    requires i <= |s|
    ensures Occurrences(SanitizeFrom(s, i), c) + Occurrences(PrefixesFrom(s, i), c) == Occurrences(s[i..], c)
    decreases |s| - i
  {
    if i == |s| {
      assert s[i..] == [];
    } else if LinePrefixAt(s, i) > 0 {
      var m := LinePrefixAt(s, i);
      UnfoldPrefixStep(s, i);
      SliceSplit(s, i, i + m);
      SanitizeFromSplits(s, i + m, c);
      OccurrencesAppend(s[i..i + m], PrefixesFrom(s, i + m), c);
      OccurrencesAppend(s[i..i + m], s[i + m..], c);
    } else {
      UnfoldCharStep(s, i);
      SliceSplit(s, i, i + 1);
      SanitizeFromSplits(s, i + 1, c);
      OccurrencesAppend(s[i..i + 1], SanitizeFrom(s, i + 1), c);
      OccurrencesAppend(s[i..i + 1], s[i + 1..], c);
    }
  }

  /** No character outside a line prefix's alphabet is ever dropped. */
  lemma {:induction false} PrefixesOmit(s: string, i: nat, c: char)
    requires i <= |s| && !Strippable(c)
    ensures Occurrences(PrefixesFrom(s, i), c) == 0
    decreases |s| - i
  {
    if i < |s| {
      if LinePrefixAt(s, i) > 0 {
        var m := LinePrefixAt(s, i);
        UnfoldPrefixStep(s, i);
        PrefixesOmit(s, i + m, c);
        LinePrefixStrippable(s, i);
        OccurrencesStrippable(s[i..i + m], c);
        OccurrencesAppend(s[i..i + m], PrefixesFrom(s, i + m), c);
      } else {
        UnfoldCharStep(s, i);
        PrefixesOmit(s, i + 1, c);
      }
    }
  }

  /** Sanitising only removes characters, and only ones a line prefix is
      made of: every other character keeps its multiplicity. */
  lemma SanitizeRemovesOnlyPrefixes(s: string)
    ensures multiset(Sanitize(s)) <= multiset(s)
    ensures forall c :: !Strippable(c) ==> multiset(Sanitize(s))[c] == multiset(s)[c]
  {
    assert s[0..] == s;
    forall c
      ensures multiset(Sanitize(s))[c] + Occurrences(PrefixesFrom(s, 0), c) == multiset(s)[c]
    {
      SanitizeFromSplits(s, 0, c);
      OccurrencesMultiplicity(Sanitize(s), c);
      OccurrencesMultiplicity(s, c);
    }
    forall c | !Strippable(c)
      ensures Occurrences(PrefixesFrom(s, 0), c) == 0
    {
      PrefixesOmit(s, 0, c);
    }
  }

  /** Sanitising does not work line by line: `\s` also matches a line
      terminator, so a line holding only `digits ":"` loses the line break
      after it as well. */
  lemma SanitizeCrossesLineBreak()
    ensures Sanitize("1:\n2") == "2"
    ensures Sanitize("1:\n2") != Sanitize("1:") + "\n" + Sanitize("2")
  {
    var s := "1:\n2";
    assert DigitRun(s, 1) == 0 && DigitRun(s, 0) == 1;
    assert WhitespaceRun(s, 3) == 0 && WhitespaceRun(s, 2) == 1;
    assert LinePrefixAt(s, 0) == 3;
    assert DigitRun(s, 4) == 0 && DigitRun(s, 3) == 1;
    assert LinePrefixAt(s, 3) == 0;
    assert SanitizeFrom(s, 4) == [];
    var a := "1:";
    assert DigitRun(a, 1) == 0 && DigitRun(a, 0) == 1;
    assert WhitespaceRun(a, 2) == 0;
    assert LinePrefixAt(a, 0) == 2;
    assert SanitizeFrom(a, 2) == [];
    var b := "2";
    assert DigitRun(b, 1) == 0 && DigitRun(b, 0) == 1;
    assert LinePrefixAt(b, 0) == 0;
    assert SanitizeFrom(b, 1) == [];
  }

  /** A numbered line loses its number. */
  lemma SanitizeExample()
    ensures Sanitize("12: x") == "x"
  {
    var s := "12: x";
    assert DigitRun(s, 2) == 0;
    assert DigitRun(s, 0) == 2;
    assert WhitespaceRun(s, 4) == 0;
    assert LinePrefixAt(s, 0) == 4;
    assert LinePrefixAt(s, 4) == 0;
    assert SanitizeFrom(s, 5) == [];
  }

  /** What the accept callback was evidently meant to do: with a truthy
      suggestion, a position, an editor and Monaco, insert the sanitised
      suggestion at the empty range at the position and drop the suggestion,
      its position and its decorations; otherwise change nothing. */
  function AcceptUpdateIntended(s: State, hasEditor: bool, hasMonaco: bool): (r: (State, Option<Edit>))
    ensures r.1.Some? <==> Truthy(s.suggestion) && s.position.Some? && hasEditor && hasMonaco
    ensures r.1.None? ==> r.0 == s
    ensures r.1.Some? ==>
      && r.1.value == Edit(s.position.value, Sanitize(s.suggestion.value))
      && r.0 == DismissUpdate(s, hasEditor).0
  {
    if !Truthy(s.suggestion) || s.position.None? || !hasEditor || !hasMonaco then (s, None)
    else (s.(suggestion := None, position := None, decoration := []), Some(Edit(s.position.value, Sanitize(s.suggestion.value))))
  }

  /** Accepting as written changes nothing, whatever the state and handles;
      with a suggestion shown at a position, an editor and Monaco, that
      differs from the intended accept, which inserts it and dismisses it. */
  lemma AcceptKeepsSuggestion(s: State, hasEditor: bool, hasMonaco: bool)
    ensures AcceptUpdate(s, hasEditor, hasMonaco) == (s, None)
    ensures Truthy(s.suggestion) && s.position.Some? ==>
      AcceptUpdate(s, true, true) != AcceptUpdateIntended(s, true, true)
  {
    if Truthy(s.suggestion) && s.position.Some? {
      assert AcceptUpdateIntended(s, true, true).1.Some?;
    }
  }

  // ---------------------------------------------------------------------------
  // The hook: one state cell updated by the updaters above
  // ---------------------------------------------------------------------------

  /** The hook's state cell; each method applies one `setState` updater. */
  class SuggestionHook {
    var state: State

    constructor ()
      ensures state == InitialState()
    {
      state := InitialState();
    }

    method ToggleEnabled()
      modifies this
      ensures state == ToggleUpdate(old(state))
    {
      state := ToggleUpdate(state);
    }

    /** `fetchSuggestion` as written: past the checks its updater throws, so
        the state cell is never updated and nothing is sent (see
        `FetchStartUpdate`); otherwise the updater returns the state as it is. */
    method FetchSuggestion(kind: string, editor: Option<Editor>) returns (outcome: Updated)
      ensures outcome == FetchStartUpdate(state, kind, editor)
      ensures outcome.ThrowsTypeError? <==> FetchGatePasses(state, editor)
      ensures outcome.Returns? ==> outcome.state == state
    {
      outcome := FetchStartUpdate(state, kind, editor);
    }

    /** The intended fetch: runs the intended updater; the request it returns
        is what goes out to the network. */
    method FetchSuggestionIntended(kind: string, editor: Option<Editor>) returns (request: Option<Request>)
      modifies this
      ensures (state, request) == FetchStartUpdateIntended(old(state), kind, editor)
    {
      var next := FetchStartUpdateIntended(state, kind, editor);
      state, request := next.0, next.1;
    }

    /** The asynchronous continuation once `request` has settled with `response`. */
    method CompleteFetch(request: Request, response: Option<string>)
      modifies this
      ensures state == FetchCompleteUpdate(old(state), request.sentAt, response)
    {
      state := FetchCompleteUpdate(state, request.sentAt, response);
    }

    /** `acceptSuggestion` as written: the state is untouched and no edit is
        made (see `AcceptKeepsSuggestion`). */
    method AcceptSuggestion(hasEditor: bool, hasMonaco: bool) returns (edit: Option<Edit>)
      modifies this
      ensures (state, edit) == AcceptUpdate(old(state), hasEditor, hasMonaco)
      ensures state == old(state) && edit.None?
    {
      var next := AcceptUpdate(state, hasEditor, hasMonaco);
      state, edit := next.0, next.1;
    }

    /** Accepting as evidently intended; `edit` is the edit handed to
        `executeEdits`. */
    method AcceptSuggestionIntended(hasEditor: bool, hasMonaco: bool) returns (edit: Option<Edit>)
      modifies this
      ensures (state, edit) == AcceptUpdateIntended(old(state), hasEditor, hasMonaco)
    {
      var next := AcceptUpdateIntended(state, hasEditor, hasMonaco);
      state, edit := next.0, next.1;
    }

    method RejectSuggestion(hasEditor: bool) returns (removed: seq<string>)
      modifies this
      ensures (state, removed) == DismissUpdate(old(state), hasEditor)
    {
      var next := DismissUpdate(state, hasEditor);
      state, removed := next.0, next.1;
    }

    method ClearSuggestion(hasEditor: bool) returns (removed: seq<string>)
      modifies this
      ensures (state, removed) == DismissUpdate(old(state), hasEditor)
    {
      var next := DismissUpdate(state, hasEditor);
      state, removed := next.0, next.1;
    }
  }

  /** With the intended fetch, switching suggestions off while a request is in flight does not stop
      its response from being shown: start, toggle, then completion leaves
      suggestions off with the trimmed response at the send-time cursor. */
  lemma DisabledWhileInFlight(s: State, kind: string, editor: Option<Editor>, response: Option<string>)
    requires FetchStartUpdateIntended(s, kind, editor).1.Some?
    requires Truthy(response)
    ensures var (started, request) := FetchStartUpdateIntended(s, kind, editor);
      var done := FetchCompleteUpdate(ToggleUpdate(started), request.value.sentAt, response);
      && s.isEnabled && !done.isEnabled && !done.isLoading
      && done.suggestion == Some(Trim(response.value))
      && done.position == editor.value.cursor
  {
  }
}
