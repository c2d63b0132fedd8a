/**
 * The playground editor's inline-completion provider: the decision whether
 * to offer the current AI suggestion at the cursor, the item it offers, and
 * the editor refs the provider and the mount handler write.
 */
module InlineCompletion {
  import opened Wrappers
  import opened JsStrings
  import AiSuggestion

  type Position = AiSuggestion.Position

  /** How far right of the anchor, in columns, the cursor may have drifted. */
  const ColumnTolerance: int := 2

  /** An editor range; an insertion point is a range whose start and end coincide. */
  datatype Range = Range(startLine: int, startColumn: int, endLine: int, endColumn: int)

  /** One inline completion item (its constant label, kind and texts are left out). */
  datatype CompletionItem = CompletionItem(insertText: string, range: Range)

  /** `currentSuggestionRef.current`. */
  datatype CurrentSuggestion = CurrentSuggestion(text: string, position: Position, id: string)

  /** The acceptance window: the anchor's line, at most `ColumnTolerance` columns right of it. */
  predicate InWindow(cursor: Position, anchor: Position) {
    cursor.line == anchor.line && anchor.column <= cursor.column <= anchor.column + ColumnTolerance
  }

  /** The empty range at `p`. */
  function EmptyRangeAt(p: Position): (r: Range)
    ensures r.startLine == r.endLine == p.line && r.startColumn == r.endColumn == p.column
  {
    Range(p.line, p.column, p.line, p.column)
  }

  /** Whether `provideInlineCompletions` offers the suggestion: neither the
      accepting nor the accepted flag is set, the suggestion is truthy, it has
      a position, and the cursor is in the window. */
  predicate Offers(accepting: bool, accepted: bool, suggestion: Option<string>, anchor: Option<Position>, cursor: Position) {
    !accepting && !accepted && Truthy(suggestion) && anchor.Some? && InWindow(cursor, anchor.value)
  }

  /** The items `provideInlineCompletions` returns: none unless it offers the
      suggestion; then one item whose text is the suggestion without carriage
      returns, to be inserted at the empty range at the anchor. */
  function ProvideItems(accepting: bool, accepted: bool, suggestion: Option<string>, anchor: Option<Position>, cursor: Position): (items: seq<CompletionItem>)
    ensures |items| <= 1
    ensures |items| == 1 <==> Offers(accepting, accepted, suggestion, anchor, cursor)
    ensures accepting || accepted ==> items == []
    ensures !Truthy(suggestion) || anchor.None? ==> items == []
    ensures |items| == 1 ==>
      && items[0].insertText == RemoveAll(suggestion.value, '\r')
      && '\r' !in items[0].insertText
      && |items[0].insertText| <= |suggestion.value|
      && multiset(items[0].insertText) == multiset(suggestion.value)['\r' := 0]
      && items[0].range == EmptyRangeAt(anchor.value)
  {
    if accepting || accepted then []
    else if !Truthy(suggestion) || anchor.None? then []
    else if !InWindow(cursor, anchor.value) then []
    else
      RemoveAllKeepsOthers(suggestion.value, '\r');
      [CompletionItem(RemoveAll(suggestion.value, '\r'), EmptyRangeAt(anchor.value))]
  }

  /** Cleaning an already clean text changes nothing. */
  lemma InsertTextClean(accepting: bool, accepted: bool, suggestion: Option<string>, anchor: Option<Position>, cursor: Position)
    requires |ProvideItems(accepting, accepted, suggestion, anchor, cursor)| == 1
    ensures var t := ProvideItems(accepting, accepted, suggestion, anchor, cursor)[0].insertText;
      RemoveAll(t, '\r') == t
  {
  }

  /** The window is exactly three columns wide: the anchor and two to its right. */
  lemma WindowBounds(anchor: Position, text: string)
    requires text != ""
    ensures |ProvideItems(false, false, Some(text), Some(anchor), anchor)| == 1
    ensures |ProvideItems(false, false, Some(text), Some(anchor), AiSuggestion.Position(anchor.line, anchor.column + 2))| == 1
    ensures ProvideItems(false, false, Some(text), Some(anchor), AiSuggestion.Position(anchor.line, anchor.column + 3)) == []
    ensures ProvideItems(false, false, Some(text), Some(anchor), AiSuggestion.Position(anchor.line, anchor.column - 1)) == []
    ensures ProvideItems(false, false, Some(text), Some(anchor), AiSuggestion.Position(anchor.line + 1, anchor.column)) == []
  {
  }

  /** How the provider's promise settles: with its items, or rejected with a message. */
  datatype ProviderOutcome = Items(items: seq<CompletionItem>) | Rejects(message: string)

  /** The `TypeError` raised by reading `Snippet` from the missing
      `monaco.languages.CompletedItemKind`. */
  const MissingItemKind: string := "Cannot read properties of undefined (reading 'Snippet')"

  /** `provideInlineCompletions` as written: building the offered item reads
      the item kind from `CompletedItemKind`, a name Monaco does not define,
      so the promise rejects whenever an item would be offered. */
  function ProvideAsWritten(accepting: bool, accepted: bool, suggestion: Option<string>, anchor: Option<Position>, cursor: Position): (r: ProviderOutcome)
    ensures r.Rejects? <==> Offers(accepting, accepted, suggestion, anchor, cursor)
    ensures r.Items? ==> r.items == ProvideItems(accepting, accepted, suggestion, anchor, cursor)
  {
    var items := ProvideItems(accepting, accepted, suggestion, anchor, cursor);
    if |items| == 1 then Rejects(MissingItemKind) else Items(items)
  }

  /** As written, the provider never yields an item: it settles with no
      items or rejects. */
  lemma {:induction false} AsWrittenNeverOffers(accepting: bool, accepted: bool, suggestion: Option<string>, anchor: Option<Position>, cursor: Position)
    ensures var r := ProvideAsWritten(accepting, accepted, suggestion, anchor, cursor);
      r.Rejects? || r == Items([])
  {
    var items := ProvideItems(accepting, accepted, suggestion, anchor, cursor);
    assert |items| == 0 || |items| == 1;
  }

  /** The editor component's refs. The editor and Monaco instances are foreign
      objects and stand here as opaque handles. */
  class EditorRefs {
    var editor: Option<nat>
    var monaco: Option<nat>
    var currentSuggestion: Option<CurrentSuggestion>
    var isAccepting: bool
    var accepted: bool

    constructor ()
      ensures editor.None? && monaco.None? && currentSuggestion.None?
      ensures !isAccepting && !accepted
    {
      editor, monaco, currentSuggestion := None, None, None;
      isAccepting, accepted := false, false;
    }

    /** `handleEditorDidMount`: records the editor and Monaco instances. */
    method HandleEditorDidMount(editorHandle: nat, monacoHandle: nat)
      modifies this
      ensures editor == Some(editorHandle) && monaco == Some(monacoHandle)
      ensures currentSuggestion == old(currentSuggestion)
      ensures isAccepting == old(isAccepting) && accepted == old(accepted)
    {
      editor, monaco := Some(editorHandle), Some(monacoHandle);
    }

    /** `provideInlineCompletions(position)` as written, for the suggestion
        props it closes over; `freshId` stands for `generateSuggestionId()`.
        When the suggestion is offered, the ref to the current suggestion is
        written, and then building the item throws (see `ProvideAsWritten`),
        so the promise rejects. */
    method ProvideInlineCompletions(suggestion: Option<string>, anchor: Option<Position>, cursor: Position, freshId: string)
      returns (outcome: ProviderOutcome)
      modifies this`currentSuggestion
      ensures outcome == ProvideAsWritten(isAccepting, accepted, suggestion, anchor, cursor)
      ensures outcome.Rejects? ==> currentSuggestion == Some(CurrentSuggestion(suggestion.value, anchor.value, freshId))
      ensures outcome.Items? ==> outcome.items == [] && currentSuggestion == old(currentSuggestion)
    {
      var items := ProvideInlineCompletionsIntended(suggestion, anchor, cursor, freshId);
      if |items| == 1 {
        outcome := Rejects(MissingItemKind);
      } else {
        outcome := Items(items);
      }
    }

    /** The provider with the item kind read from `CompletionItemKind` as
        intended: the ref to the current suggestion is written exactly when
        an item is offered. */
    method ProvideInlineCompletionsIntended(suggestion: Option<string>, anchor: Option<Position>, cursor: Position, freshId: string)
      returns (items: seq<CompletionItem>)
      modifies this`currentSuggestion
      ensures items == ProvideItems(isAccepting, accepted, suggestion, anchor, cursor)
      ensures |items| == 1 ==> currentSuggestion == Some(CurrentSuggestion(suggestion.value, anchor.value, freshId))
      ensures |items| == 0 ==> currentSuggestion == old(currentSuggestion)
    {
      if isAccepting || accepted {
        return [];
      }
      if !Truthy(suggestion) || anchor.None? {
        return [];
      }
      var position := anchor.value;
      var isPositionMatch := cursor.line == position.line && cursor.column >= position.column
        && cursor.column <= position.column + ColumnTolerance;
      if !isPositionMatch {
        return [];
      }
      currentSuggestion := Some(CurrentSuggestion(suggestion.value, position, freshId));
      var cleanSuggestion := RemoveAll(suggestion.value, '\r');
      items := [CompletionItem(cleanSuggestion, EmptyRangeAt(position))];
    }
  }
}
