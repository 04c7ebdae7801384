/**
 * InvalidSchemaError: turns the nested error tree of a failed validation
 * into one line per message, each prefixed by the dotted path of the field
 * at fault, the paths padded so that the messages line up.
 */
module SchemaErrors {
  import opened Wrappers
  import opened Document
  import opened Text
  import Schema

  // ---------------------------------------------------------------------------
  // The error tree: `{ key: [ item, ... ], ... }` where an item is a message
  // or a nested tree; keys are field names or list indices.

  /** A validation message; never empty. */
  type ErrorText = s: string | |s| > 0 witness "?"

  datatype ErrorKey = FieldKey(name: string) | IndexKey(index: int)

  datatype ErrorItem = Message(text: ErrorText) | Nested(tree: ErrorTree)

  /** One key of a level with its non-empty list of errors. */
  datatype ErrorEntry = ErrorEntry(key: ErrorKey, errors: seq<ErrorItem>)

  /** One level of the tree: its entries in insertion order. */
  datatype ErrorTree = ErrorTree(entries: seq<ErrorEntry>)

  /** Every error list in the tree is non-empty, as the walk reads `errors[0]` unguarded. */
  ghost predicate WellFormed(tree: ErrorTree)
    decreases tree
  {
    forall i :: 0 <= i < |tree.entries| ==>
      && |tree.entries[i].errors| > 0
      && forall j :: 0 <= j < |tree.entries[i].errors| ==>
           (tree.entries[i].errors[j].Nested? ==> WellFormed(tree.entries[i].errors[j].tree))
  }

  // ---------------------------------------------------------------------------
  // Messages and keys

  /** A message as it is stored: capitalised, with a full stop added unless it already ends in one. */
  function NormalizeMessage(err: ErrorText): (r: string)
    ensures |r| == |err| + (if err[|err| - 1] == '.' then 0 else 1)
    ensures r[0] == UpperChar(err[0]) && r[1..|err|] == Lower(err[1..])
    ensures r[|r| - 1] == '.'
  {
    Capitalize(err) + (if err[|err| - 1] != '.' then "." else "")
  }

  lemma NormalizeMessageIdempotent(err: ErrorText)
    ensures NormalizeMessage(NormalizeMessage(err)) == NormalizeMessage(err)
  {
    var suffix := if err[|err| - 1] != '.' then "." else "";
    var once := NormalizeMessage(err);
    assert once == Capitalize(err) + suffix;
    CapitalizeAppend(Capitalize(err), suffix);
    CapitalizeIdempotent(err);
    assert Lower(suffix) == suffix;
    assert NormalizeMessage(once) == Capitalize(once);
  }

  /** The texts of the message items of `items`: the `isinstance(err, str)` filter. */
  function MessageTexts(items: seq<ErrorItem>): (texts: seq<ErrorText>)
    ensures |texts| <= |items|
    ensures forall t :: t in texts ==> Message(t) in items
    ensures forall j :: 0 <= j < |items| && items[j].Message? ==> items[j].text in texts
  {
    if items == [] then []
    else if items[0].Message? then [items[0].text] + MessageTexts(items[1..])
    else MessageTexts(items[1..])
  }

  /** The normalised text of every message among `items`, in order; nested trees are skipped. */
  function Messages(items: seq<ErrorItem>): (r: seq<string>)
    ensures |r| == |MessageTexts(items)|
    ensures forall k :: 0 <= k < |r| ==> r[k] == NormalizeMessage(MessageTexts(items)[k])
    ensures forall k :: 0 <= k < |r| ==> |r[k]| > 0 && r[k][|r[k]| - 1] == '.'
  {
    if items == [] then []
    else
      var rest := Messages(items[1..]);
      if items[0].Message? then
        NormalizedCons(items[0].text, MessageTexts(items[1..]), rest);
        [NormalizeMessage(items[0].text)] + rest
      else
        rest
  }

  /** Normalising one more text in front keeps the result aligned with the texts. */
  lemma NormalizedCons(text: ErrorText, texts: seq<ErrorText>, rest: seq<string>)
    requires |rest| == |texts| && forall k :: 0 <= k < |rest| ==> rest[k] == NormalizeMessage(texts[k])
    ensures forall k :: 0 <= k < |rest| + 1 ==>
              ([NormalizeMessage(text)] + rest)[k] == NormalizeMessage(([text] + texts)[k])
  {
  }

  function FieldNames(path: seq<ErrorKey>): seq<string> {
    if path == [] then []
    else if path[0].FieldKey? then [path[0].name] + FieldNames(path[1..])
    else FieldNames(path[1..])
  }

  /** The `.`-join of the field names of a path; list indices are dropped. */
  function DottedKey(path: seq<ErrorKey>): string {
    Join(".", FieldNames(path))
  }

  // ---------------------------------------------------------------------------
  // The ordered mapping from dotted key to messages

  type ByKey = seq<(string, seq<string>)>

  function KeySet(d: ByKey): (r: set<string>)
    ensures d != [] ==> d[0].0 in r
  {
    set e | e in d :: e.0
  }

  /** The position of the first entry under `key`. */
  function KeyIndex(d: ByKey, key: string): (i: nat)
    requires key in KeySet(d)
    ensures i < |d| && d[i].0 == key
    ensures forall j :: 0 <= j < i ==> d[j].0 != key
  {
    KeySetCons(d[0], d[1..]);
    assert d == [d[0]] + d[1..];
    if d[0].0 == key then 0 else 1 + KeyIndex(d[1..], key)
  }

  /** `d[key] = value` on an insertion-ordered dict: replaced where the key is, appended otherwise. */
  function Put(d: ByKey, key: string, value: seq<string>): (r: ByKey)
    ensures KeySet(r) == KeySet(d) + {key}
    ensures (key, value) in r
    ensures key in KeySet(d) ==> r == d[KeyIndex(d, key) := (key, value)]
    ensures key !in KeySet(d) ==> r == d + [(key, value)]
  {
    if d == [] then [(key, value)]
    else if d[0].0 == key then
      assert [(key, value)] + d[1..] == d[0 := (key, value)];
      [(key, value)] + d[1..]
    else
      var rest := Put(d[1..], key, value);
      assert d == [d[0]] + d[1..];
      PutCons(d[0], d[1..], key, value, rest);
      [d[0]] + rest
  }

  /** What `Put` promises of `d` it promises of `d` behind an entry under another key. */
  lemma PutCons(e: (string, seq<string>), d: ByKey, key: string, value: seq<string>, rest: ByKey)
    requires e.0 != key
    requires KeySet(rest) == KeySet(d) + {key} && (key, value) in rest
    requires key in KeySet(d) ==> rest == d[KeyIndex(d, key) := (key, value)]
    requires key !in KeySet(d) ==> rest == d + [(key, value)]
    ensures KeySet([e] + rest) == KeySet([e] + d) + {key} && (key, value) in [e] + rest
    ensures key in KeySet([e] + d) ==> [e] + rest == ([e] + d)[KeyIndex([e] + d, key) := (key, value)]
    ensures key !in KeySet([e] + d) ==> [e] + rest == ([e] + d) + [(key, value)]
  {
    KeySetCons(e, d);
    KeySetCons(e, rest);
    if key in KeySet(d) {
      PutConsPlace(e, d, key, value);
    } else {
      assert [e] + (d + [(key, value)]) == ([e] + d) + [(key, value)];
    }
  }

  /** An existing key sits one place further behind an entry under another key. */
  lemma PutConsPlace(e: (string, seq<string>), d: ByKey, key: string, value: seq<string>)
    requires e.0 != key && key in KeySet(d) && key in KeySet([e] + d)
    ensures [e] + d[KeyIndex(d, key) := (key, value)] == ([e] + d)[KeyIndex([e] + d, key) := (key, value)]
  {
    var i := KeyIndex(d, key);
    assert ([e] + d)[1..] == d;
    assert KeyIndex([e] + d, key) == i + 1;
  }

  /** A key other than the only one present is appended after it. */
  lemma PutAfterOther(e: (string, seq<string>), key: string, value: seq<string>)
    requires e.0 != key
    ensures Put([e], key, value) == [e, (key, value)]
  {
    assert [e][1..] == [];
  }

  lemma KeySetCons(e: (string, seq<string>), d: ByKey)
    ensures KeySet([e] + d) == {e.0} + KeySet(d)
  {
    assert forall x :: x in [e] + d <==> x == e || x in d;
  }

  // ---------------------------------------------------------------------------
  // The walk as written: one breadcrumb list shared by every level

  /** Every key of `keys` except `key`. */
  function Without(keys: seq<ErrorKey>, key: ErrorKey): seq<ErrorKey> {
    if keys == [] then []
    else if keys[0] == key then Without(keys[1..], key)
    else [keys[0]] + Without(keys[1..], key)
  }

  function KeysOf(tree: ErrorTree): seq<ErrorKey> {
    seq(|tree.entries|, i requires 0 <= i < |tree.entries| => tree.entries[i].key)
  }

  /**
   * `walk_errors(tree, breadcrumbs)` from the state (breadcrumbs, errors by key):
   * a key is pushed; a nested first error is walked with the same list; a
   * message list is recorded under the dotted breadcrumbs, after which one
   * breadcrumb is popped if keys remain at this level and all are cleared
   * otherwise.
   */
  function WalkAsWritten(tree: ErrorTree, breadcrumbs: seq<ErrorKey>, byKey: ByKey): (seq<ErrorKey>, ByKey)
    requires WellFormed(tree)
    decreases tree, 1, 0
  {
    var (_, crumbs, recorded) := WalkEntriesAsWritten(tree, 0, KeysOf(tree), breadcrumbs, byKey);
    (crumbs, recorded)
  }

  /** The state after the entries of `tree` from the `i`-th on: (level keys, breadcrumbs, errors by key). */
  function WalkEntriesAsWritten(tree: ErrorTree, i: nat, levelKeys: seq<ErrorKey>,
                                breadcrumbs: seq<ErrorKey>, byKey: ByKey): (seq<ErrorKey>, seq<ErrorKey>, ByKey)
    requires WellFormed(tree) && i <= |tree.entries|
    decreases tree, 0, |tree.entries| - i, 1
  {
    if i == |tree.entries| then (levelKeys, breadcrumbs, byKey)
    else
      var (keys', crumbs', byKey') := VisitAsWritten(tree, i, levelKeys, breadcrumbs, byKey);
      WalkEntriesAsWritten(tree, i + 1, keys', crumbs', byKey')
  }

  /** One iteration of the loop of `walk_errors`, at the `i`-th key of `tree`. */
  function VisitAsWritten(tree: ErrorTree, i: nat, levelKeys: seq<ErrorKey>,
                          breadcrumbs: seq<ErrorKey>, byKey: ByKey): (seq<ErrorKey>, seq<ErrorKey>, ByKey)
    requires WellFormed(tree) && i < |tree.entries|
    decreases tree, 0, |tree.entries| - i, 0
  {
    var entry := tree.entries[i];
    var crumbs := breadcrumbs + [entry.key];
    var remaining := Without(levelKeys, entry.key);
    match entry.errors[0]
    case Nested(sub) =>
      if |sub.entries| > 0 then
        var (crumbs', byKey') := WalkAsWritten(sub, crumbs, byKey);
        (remaining, crumbs', byKey')
      else
        (remaining, crumbs, byKey)
    case Message(_) =>
      var recorded := Put(byKey, DottedKey(crumbs), Messages(entry.errors));
      var popped := if |remaining| > 0 then crumbs[..|crumbs| - 1] else [];
      (remaining, popped, recorded)
  }

  /** The closure state of `walk_errors`, updated in place as the source does. */
  class ErrorWalk {
    var breadcrumbs: seq<ErrorKey>
    var errorsByKey: ByKey

    constructor ()
      ensures breadcrumbs == [] && errorsByKey == []
    {
      breadcrumbs, errorsByKey := [], [];
    }

    method Walk(tree: ErrorTree)
      requires WellFormed(tree)
      modifies this
      ensures (breadcrumbs, errorsByKey) == WalkAsWritten(tree, old(breadcrumbs), old(errorsByKey))
      decreases tree, 1
    {
      var levelKeys := KeysOf(tree);
      var i := 0;
      while i < |tree.entries|
        invariant i <= |tree.entries|
        invariant WalkEntriesAsWritten(tree, i, levelKeys, breadcrumbs, errorsByKey)
               == WalkEntriesAsWritten(tree, 0, KeysOf(tree), old(breadcrumbs), old(errorsByKey))
      {
        levelKeys := Visit(tree, i, levelKeys);
        i := i + 1;
      }
    }

    /** The body of the loop of `walk_errors` for the `i`-th key; returns the level keys left. */
    method Visit(tree: ErrorTree, i: nat, levelKeys: seq<ErrorKey>) returns (remaining: seq<ErrorKey>)
      requires WellFormed(tree) && i < |tree.entries|
      modifies this
      ensures (remaining, breadcrumbs, errorsByKey)
           == VisitAsWritten(tree, i, levelKeys, old(breadcrumbs), old(errorsByKey))
      decreases tree, 0
    {
      var entry := tree.entries[i];
      breadcrumbs := breadcrumbs + [entry.key];
      remaining := Without(levelKeys, entry.key);
      match entry.errors[0]
      case Nested(sub) =>
        if |sub.entries| > 0 {
          Walk(sub);
        }
      case Message(_) =>
        errorsByKey := Put(errorsByKey, DottedKey(breadcrumbs), Messages(entry.errors));
        if |remaining| > 0 {
          breadcrumbs := breadcrumbs[..|breadcrumbs| - 1];
        } else {
          ghost var recorded := errorsByKey;
          while |breadcrumbs| > 0
            invariant errorsByKey == recorded
          {
            breadcrumbs := breadcrumbs[..|breadcrumbs| - 1];
          }
        }
    }
  }

  // ---------------------------------------------------------------------------
  // The walk as intended: every recorded key is the full path to its messages

  /** Records every message list of `tree` under the dotted form of its full path. */
  function Flatten(tree: ErrorTree, path: seq<ErrorKey>, byKey: ByKey): ByKey
    requires WellFormed(tree)
    decreases tree, 1, 0
  {
    FlattenEntries(tree, 0, path, byKey)
  }

  function FlattenEntries(tree: ErrorTree, i: nat, path: seq<ErrorKey>, byKey: ByKey): ByKey
    requires WellFormed(tree) && i <= |tree.entries|
    decreases tree, 0, |tree.entries| - i, 1
  {
    if i == |tree.entries| then byKey
    else FlattenEntries(tree, i + 1, path, FlattenVisit(tree, i, path, byKey))
  }

  /** The `i`-th key of `tree`: its subtree walked with the path extended, or its messages recorded. */
  function FlattenVisit(tree: ErrorTree, i: nat, path: seq<ErrorKey>, byKey: ByKey): ByKey
    requires WellFormed(tree) && i < |tree.entries|
    decreases tree, 0, |tree.entries| - i, 0
  {
    var entry := tree.entries[i];
    if entry.errors[0].Nested? then Flatten(entry.errors[0].tree, path + [entry.key], byKey)
    else Put(byKey, DottedKey(path + [entry.key]), Messages(entry.errors))
  }

  /** The full path of every key whose first error is a message, depth first in insertion order. */
  function Leaves(tree: ErrorTree, path: seq<ErrorKey>): seq<seq<ErrorKey>>
    requires WellFormed(tree)
    decreases tree, 1, 0
  {
    LeavesFrom(tree, 0, path)
  }

  function LeavesFrom(tree: ErrorTree, i: nat, path: seq<ErrorKey>): seq<seq<ErrorKey>>
    requires WellFormed(tree) && i <= |tree.entries|
    decreases tree, 0, |tree.entries| - i, 1
  {
    if i == |tree.entries| then []
    else LeavesAt(tree, i, path) + LeavesFrom(tree, i + 1, path)
  }

  function LeavesAt(tree: ErrorTree, i: nat, path: seq<ErrorKey>): seq<seq<ErrorKey>>
    requires WellFormed(tree) && i < |tree.entries|
    decreases tree, 0, |tree.entries| - i, 0
  {
    var entry := tree.entries[i];
    if entry.errors[0].Nested? then Leaves(entry.errors[0].tree, path + [entry.key])
    else [path + [entry.key]]
  }

  function DottedKeys(paths: seq<seq<ErrorKey>>): set<string> {
    set p | p in paths :: DottedKey(p)
  }

  lemma DottedKeysAppend(a: seq<seq<ErrorKey>>, b: seq<seq<ErrorKey>>)
    ensures DottedKeys(a + b) == DottedKeys(a) + DottedKeys(b)
  {
    assert forall p :: p in a + b <==> p in a || p in b;
  }

  /** The intended walk records exactly the dotted full paths of the message lists, and keeps what was there. */
  lemma {:induction false} FlattenKeys(tree: ErrorTree, path: seq<ErrorKey>, byKey: ByKey)
    requires WellFormed(tree)
    ensures KeySet(Flatten(tree, path, byKey)) == KeySet(byKey) + DottedKeys(Leaves(tree, path))
    decreases tree, 1
  {
    FlattenEntriesKeys(tree, 0, path, byKey);
  }

  lemma {:induction false} FlattenEntriesKeys(tree: ErrorTree, i: nat, path: seq<ErrorKey>, byKey: ByKey)
    requires WellFormed(tree) && i <= |tree.entries|
    ensures KeySet(FlattenEntries(tree, i, path, byKey)) == KeySet(byKey) + DottedKeys(LeavesFrom(tree, i, path))
    decreases tree, 0, |tree.entries| - i
  {
    if i < |tree.entries| {
      var entry := tree.entries[i];
      if entry.errors[0].Nested? {
        FlattenKeys(entry.errors[0].tree, path + [entry.key], byKey);
      } else {
        assert DottedKeys(LeavesAt(tree, i, path)) == {DottedKey(path + [entry.key])};
      }
      FlattenEntriesKeys(tree, i + 1, path, FlattenVisit(tree, i, path, byKey));
      DottedKeysAppend(LeavesAt(tree, i, path), LeavesFrom(tree, i + 1, path));
    }
  }

  /** A level holding only message lists. */
  predicate Flat(tree: ErrorTree) {
    forall i :: 0 <= i < |tree.entries| ==> |tree.entries[i].errors| > 0 && tree.entries[i].errors[0].Message?
  }

  /** On a single level of messages the breadcrumbs stay empty and both walks record the same keys. */
  lemma {:induction false} FlatWalkAgrees(tree: ErrorTree, i: nat, levelKeys: seq<ErrorKey>, byKey: ByKey)
    requires WellFormed(tree) && Flat(tree) && i <= |tree.entries|
    ensures WalkEntriesAsWritten(tree, i, levelKeys, [], byKey).1 == []
    ensures WalkEntriesAsWritten(tree, i, levelKeys, [], byKey).2 == FlattenEntries(tree, i, [], byKey)
    decreases |tree.entries| - i
  {
    if i < |tree.entries| {
      var entry := tree.entries[i];
      var (keys', crumbs', byKey') := VisitAsWritten(tree, i, levelKeys, [], byKey);
      assert crumbs' == [];
      assert [] + [entry.key] == [entry.key];
      FlatWalkAgrees(tree, i + 1, keys', byKey');
    }
  }

  // ---------------------------------------------------------------------------
  // A walk that loses breadcrumbs: an author too long and a width too small.

  const AuthorTooLong: ErrorTree :=
    ErrorTree([ErrorEntry(IndexKey(0), [Message("max length is 64")])])
  const MetaErrors: ErrorTree :=
    ErrorTree([ErrorEntry(FieldKey("authors"), [Nested(AuthorTooLong)]),
               ErrorEntry(FieldKey("width"), [Message("min value is 40")])])
  const NestedErrors: ErrorTree :=
    ErrorTree([ErrorEntry(FieldKey("meta"), [Nested(MetaErrors)])])

  const AuthorMessages := ["Max length is 64."]
  const WidthMessages := ["Min value is 40."]

  lemma ExampleMessages()
    ensures Messages([Message("max length is 64")]) == AuthorMessages
    ensures Messages([Message("min value is 40")]) == WidthMessages
  {
    ExampleAuthorMessage();
    ExampleWidthMessage();
  }

  lemma ExampleAuthorMessage()
    ensures NormalizeMessage("max length is 64") == "Max length is 64."
  {
    var author: string := "max length is 64";
    assert |author| == 16;
    assert Lower(author[1..]) == author[1..];
  }

  lemma ExampleWidthMessage()
    ensures NormalizeMessage("min value is 40") == "Min value is 40."
  {
    var width: string := "min value is 40";
    assert |width| == 15;
    assert Lower(width[1..]) == width[1..];
  }

  lemma ExampleWellFormed()
    ensures WellFormed(AuthorTooLong) && WellFormed(MetaErrors) && WellFormed(NestedErrors)
  {
    assert WellFormed(AuthorTooLong);
    assert WellFormed(MetaErrors);
  }

  /** The author's message list, recorded under its breadcrumbs. */
  lemma ExampleAuthorRecord()
    ensures Put([], DottedKey([FieldKey("meta"), FieldKey("authors")] + [IndexKey(0)]), Messages([Message("max length is 64")]))
         == [("meta.authors", AuthorMessages)]
  {
    ExampleMessages();
    ExampleDottedKeys();
    assert [FieldKey("meta"), FieldKey("authors")] + [IndexKey(0)] == [FieldKey("meta"), FieldKey("authors"), IndexKey(0)];
  }

  /** The only key of the author's level: recorded under `meta.authors`, then every breadcrumb is cleared. */
  lemma ExampleAuthorVisit()
    ensures WellFormed(AuthorTooLong)
    ensures VisitAsWritten(AuthorTooLong, 0, [IndexKey(0)], [FieldKey("meta"), FieldKey("authors")], [])
         == ([], [], [("meta.authors", AuthorMessages)])
  {
    ExampleWellFormed();
    ExampleAuthorRecord();
    assert AuthorTooLong.entries[0] == ErrorEntry(IndexKey(0), [Message("max length is 64")]);
    assert Without([IndexKey(0)], IndexKey(0)) == [];
  }

  /** The author's message is recorded under `meta.authors`, and the last key of its level clears the breadcrumbs. */
  lemma ExampleAuthorWalk()
    ensures WellFormed(AuthorTooLong)
    ensures WalkAsWritten(AuthorTooLong, [FieldKey("meta"), FieldKey("authors")], [])
         == ([], [("meta.authors", AuthorMessages)])
  {
    ExampleAuthorVisit();
    var recorded := [("meta.authors", AuthorMessages)];
    assert KeysOf(AuthorTooLong) == [IndexKey(0)];
    assert WalkEntriesAsWritten(AuthorTooLong, 1, [], [], recorded) == ([], [], recorded);
  }

  lemma ExampleDottedKeys()
    ensures DottedKey([FieldKey("meta"), FieldKey("authors"), IndexKey(0)]) == "meta.authors"
    ensures DottedKey([FieldKey("meta"), FieldKey("width")]) == "meta.width"
    ensures DottedKey([FieldKey("width")]) == "width"
  {
    assert FieldNames([FieldKey("meta"), FieldKey("authors"), IndexKey(0)]) == ["meta", "authors"];
    assert FieldNames([FieldKey("meta"), FieldKey("width")]) == ["meta", "width"];
    assert Join(".", ["meta", "width"]) == "meta" + "." + "width";
    assert Join(".", ["meta", "authors"]) == "meta" + "." + "authors";
  }

  /** The subtree of `authors` empties the breadcrumbs; `width` is left at this level. */
  lemma ExampleMetaFirstKey()
    ensures WellFormed(MetaErrors)
    ensures VisitAsWritten(MetaErrors, 0, [FieldKey("authors"), FieldKey("width")], [FieldKey("meta")], [])
         == ([FieldKey("width")], [], [("meta.authors", AuthorMessages)])
  {
    ExampleAuthorWalk();
    assert Without([FieldKey("authors"), FieldKey("width")], FieldKey("authors")) == [FieldKey("width")];
    assert [FieldKey("meta")] + [FieldKey("authors")] == [FieldKey("meta"), FieldKey("authors")];
  }

  /** `width` is pushed onto the emptied breadcrumbs and recorded under `width` alone. */
  lemma ExampleMetaSecondKey()
    ensures WellFormed(MetaErrors)
    ensures VisitAsWritten(MetaErrors, 1, [FieldKey("width")], [], [("meta.authors", AuthorMessages)])
         == ([], [], [("meta.authors", AuthorMessages), ("width", WidthMessages)])
  {
    ExampleWellFormed();
    ExampleMessages();
    ExampleDottedKeys();
    assert Without([FieldKey("width")], FieldKey("width")) == [];
    assert [] + [FieldKey("width")] == [FieldKey("width")];
    PutAfterOther(("meta.authors", AuthorMessages), "width", WidthMessages);
  }

  /** `width` comes after the emptied breadcrumbs and is recorded without its parent. */
  lemma ExampleMetaWalk()
    ensures WellFormed(MetaErrors)
    ensures WalkAsWritten(MetaErrors, [FieldKey("meta")], [])
         == ([], [("meta.authors", AuthorMessages), ("width", WidthMessages)])
  {
    ExampleMetaFirstKey();
    ExampleMetaSecondKey();
    var keys := [FieldKey("authors"), FieldKey("width")];
    var afterAuthors := [("meta.authors", AuthorMessages)];
    var afterWidth := [("meta.authors", AuthorMessages), ("width", WidthMessages)];
    assert KeysOf(MetaErrors) == keys;
    assert WalkEntriesAsWritten(MetaErrors, 2, [], [], afterWidth) == ([], [], afterWidth);
    assert WalkEntriesAsWritten(MetaErrors, 1, [FieldKey("width")], [], afterAuthors) == ([], [], afterWidth);
  }

  /** The walk as written records `width` where the intended walk records `meta.width`. */
  lemma WalkAsWrittenLosesParent()
    ensures WellFormed(NestedErrors)
    ensures WalkAsWritten(NestedErrors, [], []).1 == [("meta.authors", AuthorMessages), ("width", WidthMessages)]
    ensures Flatten(NestedErrors, [], []) == [("meta.authors", AuthorMessages), ("meta.width", WidthMessages)]
  {
    ExampleMetaWalk();
    var asWritten := [("meta.authors", AuthorMessages), ("width", WidthMessages)];
    assert KeysOf(NestedErrors) == [FieldKey("meta")];
    assert [] + [FieldKey("meta")] == [FieldKey("meta")];
    assert Without([FieldKey("meta")], FieldKey("meta")) == [];
    assert VisitAsWritten(NestedErrors, 0, [FieldKey("meta")], [], []) == ([], [], asWritten);
    assert WalkEntriesAsWritten(NestedErrors, 1, [], [], asWritten) == ([], [], asWritten);
    IntendedExample();
  }

  lemma IntendedAuthorWalk()
    ensures WellFormed(AuthorTooLong)
    ensures Flatten(AuthorTooLong, [FieldKey("meta"), FieldKey("authors")], []) == [("meta.authors", AuthorMessages)]
  {
    ExampleWellFormed();
    ExampleMessages();
    ExampleDottedKeys();
    var path := [FieldKey("meta"), FieldKey("authors")];
    assert path + [IndexKey(0)] == [FieldKey("meta"), FieldKey("authors"), IndexKey(0)];
    assert FlattenVisit(AuthorTooLong, 0, path, []) == [("meta.authors", AuthorMessages)];
  }

  lemma IntendedWidthVisit()
    ensures WellFormed(MetaErrors)
    ensures FlattenVisit(MetaErrors, 1, [FieldKey("meta")], [("meta.authors", AuthorMessages)])
         == [("meta.authors", AuthorMessages), ("meta.width", WidthMessages)]
  {
    ExampleWellFormed();
    ExampleMessages();
    ExampleDottedKeys();
    assert [FieldKey("meta")] + [FieldKey("width")] == [FieldKey("meta"), FieldKey("width")];
    PutAfterOther(("meta.authors", AuthorMessages), "meta.width", WidthMessages);
  }

  /** Under the subtree of `meta`, the intended walk records `meta.authors` and then `meta.width`. */
  lemma IntendedMetaWalk()
    ensures WellFormed(MetaErrors)
    ensures Flatten(MetaErrors, [FieldKey("meta")], [])
         == [("meta.authors", AuthorMessages), ("meta.width", WidthMessages)]
  {
    IntendedAuthorWalk();
    IntendedWidthVisit();
    var meta := [FieldKey("meta")];
    var afterAuthors := [("meta.authors", AuthorMessages)];
    var afterWidth := [("meta.authors", AuthorMessages), ("meta.width", WidthMessages)];
    assert meta + [FieldKey("authors")] == [FieldKey("meta"), FieldKey("authors")];
    assert FlattenVisit(MetaErrors, 0, meta, []) == afterAuthors;
    assert FlattenEntries(MetaErrors, 2, meta, afterWidth) == afterWidth;
    assert FlattenEntries(MetaErrors, 1, meta, afterAuthors) == afterWidth;
    assert FlattenEntries(MetaErrors, 0, meta, []) == afterWidth;
  }

  /** The intended walk keeps `meta` in front of both keys. */
  lemma IntendedExample()
    ensures WellFormed(NestedErrors)
    ensures Flatten(NestedErrors, [], []) == [("meta.authors", AuthorMessages), ("meta.width", WidthMessages)]
  {
    IntendedMetaWalk();
    var afterWidth := [("meta.authors", AuthorMessages), ("meta.width", WidthMessages)];
    assert [] + [FieldKey("meta")] == [FieldKey("meta")];
    assert FlattenVisit(NestedErrors, 0, [], []) == afterWidth;
    assert FlattenEntries(NestedErrors, 1, [], afterWidth) == afterWidth;
  }

  // ---------------------------------------------------------------------------
  // The error lines

  const ErrorHeader := "Please amend these schema errors in your blueprint:"

  function KeyLengths(d: ByKey): (r: seq<int>)
    ensures |r| == |d| && forall k :: 0 <= k < |d| ==> r[k] == |d[k].0|
  {
    seq(|d|, k requires 0 <= k < |d| => |d[k].0|)
  }

  /** `max(map(len, errors_by_key))`: the length of the longest key. */
  function PadLength(d: ByKey): (r: nat)
    requires |d| > 0
    ensures forall k :: 0 <= k < |d| ==> |d[k].0| <= r
    ensures exists k :: 0 <= k < |d| && |d[k].0| == r
  {
    var lengths := KeyLengths(d);
    var m := Schema.MaxOf(lengths);
    assert lengths[0] >= 0;
    m
  }

  /** One line: the key and a colon padded to one past the longest key, a space, the message. */
  function ErrorLine(key: string, message: string, pad: nat): string {
    ReplaceDotComma(LJust(key + ":", pad + 1) + " " + message)
  }

  function EntryLines(key: string, messages: seq<string>, pad: nat): (r: seq<string>)
    ensures |r| == |messages|
  {
    seq(|messages|, j requires 0 <= j < |messages| => ErrorLine(key, messages[j], pad))
  }

  /** The lines of every entry of `d`, entry by entry. */
  function FormatLines(d: ByKey, pad: nat): seq<string> {
    if d == [] then []
    else FormatLines(d[..|d| - 1], pad) + EntryLines(d[|d| - 1].0, d[|d| - 1].1, pad)
  }

  function MessageCount(d: ByKey): nat {
    if d == [] then 0 else MessageCount(d[..|d| - 1]) + |d[|d| - 1].1|
  }

  /** The header and the lines of the recorded errors: none for an empty tree, a ValueError when nothing was recorded. */
  function FormatErrors(tree: ErrorTree, d: ByKey): Result<seq<string>, PyError> {
    if |tree.entries| == 0 then Success([])
    else if |d| == 0 then Failure(ValueError)
    else Success([ErrorHeader] + FormatLines(d, PadLength(d)))
  }

  /** The lines of `InvalidSchemaError`, from the errors by key that the walk as written records. */
  function ErrorLines(tree: ErrorTree): Result<seq<string>, PyError>
    requires WellFormed(tree)
  {
    FormatErrors(tree, WalkAsWritten(tree, [], []).1)
  }

  /** The lines `InvalidSchemaError` would print with every key recorded under its full path. */
  function ErrorLinesIntended(tree: ErrorTree): Result<seq<string>, PyError>
    requires WellFormed(tree)
  {
    FormatErrors(tree, Flatten(tree, [], []))
  }

  /** The constructor of `InvalidSchemaError`: walk the tree, then append the lines one at a time. */
  method BuildErrorLines(tree: ErrorTree) returns (r: Result<seq<string>, PyError>)
    requires WellFormed(tree)
    ensures r == ErrorLines(tree)
  {
    if |tree.entries| == 0 {
      return Success([]);
    }
    var walk := new ErrorWalk();
    walk.Walk(tree);
    var d := walk.errorsByKey;
    if |d| == 0 {
      return Failure(ValueError);
    }
    var lines := [ErrorHeader];
    var pad := PadLength(d);
    var body := BuildFormatLines(d, pad);
    lines := lines + body;
    return Success(lines);
  }

  /** The lines of every key of `d` in order, each padded to `pad + 1` columns. */
  method BuildFormatLines(d: ByKey, pad: nat) returns (lines: seq<string>)
    ensures lines == FormatLines(d, pad)
  {
    lines := [];
    for i := 0 to |d|
      invariant lines == FormatLines(d[..i], pad)
    {
      var (key, messages) := d[i];
      var entryLines := BuildEntryLines(key, messages, pad);
      assert d[..i + 1][..i] == d[..i];
      lines := lines + entryLines;
    }
    assert d[..|d|] == d;
  }

  /** The lines of one key: its padded key once, then one line per message. */
  method BuildEntryLines(key: string, messages: seq<string>, pad: nat) returns (lines: seq<string>)
    ensures lines == EntryLines(key, messages, pad)
  {
    lines := [];
    var padded := LJust(key + ":", pad + 1);
    for j := 0 to |messages|
      invariant lines == EntryLines(key, messages[..j], pad)
    {
      lines := lines + [ReplaceDotComma(padded + " " + messages[j])];
    }
    assert messages[..|messages|] == messages;
  }

  /** The number of lines is one header plus one per recorded message. */
  lemma {:induction false} FormatLinesCount(d: ByKey, pad: nat)
    ensures |FormatLines(d, pad)| == MessageCount(d)
    decreases |d|
  {
    if d != [] {
      FormatLinesCount(d[..|d| - 1], pad);
    }
  }

  /**
   * Without a `.,` in it, the line of `message` under `key` holds the key and
   * its colon, spaces up to column `pad + 1`, a space, and the message verbatim.
   */
  lemma ErrorLineAligned(key: string, message: string, pad: nat)
    requires |key| <= pad
    requires NoDotComma(LJust(key + ":", pad + 1) + " " + message)
    ensures |ErrorLine(key, message, pad)| == pad + 2 + |message|
    ensures ErrorLine(key, message, pad)[..|key| + 1] == key + ":"
    ensures forall c :: |key| + 1 <= c < pad + 2 ==> ErrorLine(key, message, pad)[c] == ' '
    ensures ErrorLine(key, message, pad)[pad + 2..] == message
  {
    ReplaceDotCommaIdentity(LJust(key + ":", pad + 1) + " " + message);
  }

  /** A non-empty tree recording no message at all makes `max` of an empty sequence fail. */
  lemma NoMessagesIsValueError(tree: ErrorTree)
    requires WellFormed(tree) && |tree.entries| > 0
    ensures ErrorLines(tree).Failure? <==> Leaves(tree, []) == []
    ensures ErrorLines(tree).Failure? ==> ErrorLines(tree).error == ValueError
  {
    WalkRecordsLeaves(tree, [], [], []);
  }

  /** The same holds of the lines with full paths. */
  lemma NoMessagesIsValueErrorIntended(tree: ErrorTree)
    requires WellFormed(tree) && |tree.entries| > 0
    ensures ErrorLinesIntended(tree).Failure? <==> Leaves(tree, []) == []
    ensures ErrorLinesIntended(tree).Failure? ==> ErrorLinesIntended(tree).error == ValueError
  {
    FlattenKeys(tree, [], []);
    var d := Flatten(tree, [], []);
    if Leaves(tree, []) != [] {
      assert DottedKey(Leaves(tree, [])[0]) in KeySet(d);
    }
  }

  /** `Put` never empties nor shrinks the mapping. */
  lemma PutGrows(d: ByKey, key: string, value: seq<string>)
    ensures |Put(d, key, value)| >= |d| && Put(d, key, value) != []
  {
  }

  /**
   * The walk as written records something exactly when something was recorded
   * before or the tree holds a message list; the breadcrumbs and the path do
   * not matter.
   */
  lemma {:induction false} WalkRecordsLeaves(tree: ErrorTree, crumbs: seq<ErrorKey>, byKey: ByKey, path: seq<ErrorKey>)
    requires WellFormed(tree)
    ensures |WalkAsWritten(tree, crumbs, byKey).1| >= |byKey|
    ensures KeySet(byKey) <= KeySet(WalkAsWritten(tree, crumbs, byKey).1)
    ensures WalkAsWritten(tree, crumbs, byKey).1 == [] <==> byKey == [] && Leaves(tree, path) == []
    decreases tree, 1, 0
  {
    WalkEntriesRecordsLeaves(tree, 0, KeysOf(tree), crumbs, byKey, path);
    WalkKeepsKeys(tree, crumbs, byKey);
  }

  /** Every key recorded before the walk as written is still recorded after it. */
  lemma {:induction false} WalkKeepsKeys(tree: ErrorTree, crumbs: seq<ErrorKey>, byKey: ByKey)
    requires WellFormed(tree)
    ensures KeySet(byKey) <= KeySet(WalkAsWritten(tree, crumbs, byKey).1)
    decreases tree, 1, 0
  {
    WalkEntriesKeepsKeys(tree, 0, KeysOf(tree), crumbs, byKey);
  }

  lemma {:induction false} WalkEntriesKeepsKeys(tree: ErrorTree, i: nat, levelKeys: seq<ErrorKey>,
                                                crumbs: seq<ErrorKey>, byKey: ByKey)
    requires WellFormed(tree) && i <= |tree.entries|
    ensures KeySet(byKey) <= KeySet(WalkEntriesAsWritten(tree, i, levelKeys, crumbs, byKey).2)
    decreases tree, 0, |tree.entries| - i, 1
  {
    if i < |tree.entries| {
      var visited := VisitAsWritten(tree, i, levelKeys, crumbs, byKey);
      var walked := WalkEntriesAsWritten(tree, i + 1, visited.0, visited.1, visited.2);
      assert WalkEntriesAsWritten(tree, i, levelKeys, crumbs, byKey) == walked;
      VisitKeepsKeys(tree, i, levelKeys, crumbs, byKey);
      WalkEntriesKeepsKeys(tree, i + 1, visited.0, visited.1, visited.2);
      SubsetTransitive(KeySet(byKey), KeySet(visited.2), KeySet(walked.2));
    }
  }

  lemma SubsetTransitive(a: set<string>, b: set<string>, c: set<string>)
    requires a <= b && b <= c
    ensures a <= c
  {
  }

  lemma {:induction false} VisitKeepsKeys(tree: ErrorTree, i: nat, levelKeys: seq<ErrorKey>,
                                          crumbs: seq<ErrorKey>, byKey: ByKey)
    requires WellFormed(tree) && i < |tree.entries|
    ensures KeySet(byKey) <= KeySet(VisitAsWritten(tree, i, levelKeys, crumbs, byKey).2)
    decreases tree, 0, |tree.entries| - i, 0
  {
    var entry := tree.entries[i];
    match entry.errors[0]
    case Nested(sub) =>
      WalkKeepsKeys(sub, crumbs + [entry.key], byKey);
    case Message(_) =>
  }

  lemma {:induction false} WalkEntriesRecordsLeaves(tree: ErrorTree, i: nat, levelKeys: seq<ErrorKey>,
                                                    crumbs: seq<ErrorKey>, byKey: ByKey, path: seq<ErrorKey>)
    requires WellFormed(tree) && i <= |tree.entries|
    ensures |WalkEntriesAsWritten(tree, i, levelKeys, crumbs, byKey).2| >= |byKey|
    ensures WalkEntriesAsWritten(tree, i, levelKeys, crumbs, byKey).2 == []
        <==> byKey == [] && LeavesFrom(tree, i, path) == []
    decreases tree, 0, |tree.entries| - i, 1
  {
    if i < |tree.entries| {
      var (keys', crumbs', byKey') := VisitAsWritten(tree, i, levelKeys, crumbs, byKey);
      VisitRecordsLeaves(tree, i, levelKeys, crumbs, byKey, path);
      WalkEntriesRecordsLeaves(tree, i + 1, keys', crumbs', byKey', path);
    }
  }

  lemma {:induction false} VisitRecordsLeaves(tree: ErrorTree, i: nat, levelKeys: seq<ErrorKey>,
                                              crumbs: seq<ErrorKey>, byKey: ByKey, path: seq<ErrorKey>)
    requires WellFormed(tree) && i < |tree.entries|
    ensures |VisitAsWritten(tree, i, levelKeys, crumbs, byKey).2| >= |byKey|
    ensures VisitAsWritten(tree, i, levelKeys, crumbs, byKey).2 == []
        <==> byKey == [] && LeavesAt(tree, i, path) == []
    decreases tree, 0, |tree.entries| - i, 0
  {
    var entry := tree.entries[i];
    match entry.errors[0]
    case Nested(sub) =>
      WalkRecordsLeaves(sub, crumbs + [entry.key], byKey, path + [entry.key]);
      if |sub.entries| == 0 {
        assert LeavesFrom(sub, 0, path + [entry.key]) == [];
      }
    case Message(_) =>
      PutGrows(byKey, DottedKey(crumbs + [entry.key]), Messages(entry.errors));
  }

  /** The lines of two recorded keys whose longest is 12 characters. */
  lemma TwoKeyLines(first: string, second: string, m1: string, m2: string)
    requires |first| == 12 && |second| <= 12
    ensures FormatErrors(NestedErrors, [(first, [m1]), (second, [m2])])
         == Success([ErrorHeader, ErrorLine(first, m1, 12), ErrorLine(second, m2, 12)])
  {
    var d := [(first, [m1]), (second, [m2])];
    assert PadLength(d) == 12;
    assert d[..1] == [(first, [m1])] && d[..1][..0] == [];
    assert |NestedErrors.entries| == 1;
    assert EntryLines(first, [m1], 12) == [ErrorLine(first, m1, 12)];
    assert EntryLines(second, [m2], 12) == [ErrorLine(second, m2, 12)];
    assert FormatLines(d[..1], 12) == [ErrorLine(first, m1, 12)];
    assert FormatLines(d, 12) == [ErrorLine(first, m1, 12), ErrorLine(second, m2, 12)];
    assert FormatErrors(NestedErrors, d) == Success([ErrorHeader] + FormatLines(d, PadLength(d)));
    assert [ErrorHeader] + FormatLines(d, 12) == [ErrorHeader, ErrorLine(first, m1, 12), ErrorLine(second, m2, 12)];
  }

  /** As written, `InvalidSchemaError` prints the width error under `width`; with full paths, under `meta.width`. */
  lemma ErrorLinesLoseParent()
    ensures WellFormed(NestedErrors)
    ensures ErrorLines(NestedErrors)
         == Success([ErrorHeader, ErrorLine("meta.authors", AuthorMessages[0], 12), ErrorLine("width", WidthMessages[0], 12)])
    ensures ErrorLinesIntended(NestedErrors)
         == Success([ErrorHeader, ErrorLine("meta.authors", AuthorMessages[0], 12), ErrorLine("meta.width", WidthMessages[0], 12)])
  {
    WalkAsWrittenLosesParent();
    TwoKeyLines("meta.authors", "width", AuthorMessages[0], WidthMessages[0]);
    TwoKeyLines("meta.authors", "meta.width", AuthorMessages[0], WidthMessages[0]);
  }

  /** The exception: its message is its lines joined by newlines. */
  datatype InvalidSchemaError = InvalidSchemaError(errorLines: seq<string>)
  {
    function Message(): string {
      Join("\n", errorLines)
    }
  }

  /** When no line holds a newline, the message splits back into the lines. */
  lemma MessageSplitsIntoLines(e: InvalidSchemaError)
    requires |e.errorLines| > 0
    requires forall k :: 0 <= k < |e.errorLines| ==> Free(e.errorLines[k], '\n')
    ensures Split(e.Message(), '\n') == e.errorLines
  {
    SplitJoin(e.errorLines, '\n');
  }
}
