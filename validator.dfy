/**
 * NacarValidator: the structural validation of a blueprint (delegated to
 * Cerberus, whose verdict and errors are inputs here) followed by the
 * checks a schema cannot express: the title fits the width, screen names
 * are unique, no screen links to itself and every link names a screen.
 */
module Validator {
  import opened Wrappers
  import opened Schema

  const NotHanded := "The Nacar validator was not handed a "
  const TitleTooLongMessage := "The title must not be longer than the width."
  const DuplicateNamesMessage := "All screen names must be unique."
  const SelfLinkMessage := "Screens must not link to themselves."
  const UndefinedLinkMessage := "Cannot link to an undefined screen."

  /** The text of the RuntimeError raised when the document, the schema or both are missing. */
  function MissingInputMessage(hasDocument: bool, hasSchema: bool): (m: string)
    requires !hasDocument || !hasSchema
    ensures |NotHanded| < |m| && m[..|NotHanded|] == NotHanded
    ensures !hasDocument && !hasSchema ==> m[|NotHanded|..] == "schema or a document to validate."
    ensures !hasDocument && hasSchema ==> m[|NotHanded|..] == "document to validate."
    ensures hasDocument && !hasSchema ==> m[|NotHanded|..] == "schema to validate against."
  {
    NotHanded +
      (if !hasDocument && !hasSchema then "schema or a document to validate."
       else if !hasDocument then "document to validate."
       else "schema to validate against.")
  }

  // ---------------------------------------------------------------------------
  // The checks, on the lists the schema accessors return

  /** The title check proper, as it runs when its guard holds. */
  predicate TitleExceedsWidth(bp: Blueprint) {
    |bp.title| > bp.meta.width - 4
  }

  function ToSet(names: seq<string>): set<string> {
    if names == [] then {} else {names[0]} + ToSet(names[1..])
  }

  predicate Distinct(names: seq<string>) {
    forall i, j :: 0 <= i < j < |names| ==> names[i] != names[j]
  }

  /** `len(screen_names) == len(set(screen_names))`, only asked of a non-empty list. */
  predicate ScreenNamesAreUnique(names: seq<string>) {
    |names| > 0 && |names| == |ToSet(names)|
  }

  /** `len(set([screen, target]))` for each link. */
  function DistinctEnds(links: seq<(string, string)>): (sizes: seq<int>)
    ensures |sizes| == |links|
    ensures forall k :: 0 <= k < |links| ==> sizes[k] == |{links[k].0, links[k].1}|
  {
    seq(|links|, k requires 0 <= k < |links| => |{links[k].0, links[k].1}|)
  }

  /** `1 in screen_link_lengths`. */
  predicate ScreenLinksAreRecursive(links: seq<(string, string)>) {
    1 in DistinctEnds(links)
  }

  function Targets(links: seq<(string, string)>): (targets: seq<string>)
    ensures |targets| == |links|
    ensures forall k :: 0 <= k < |links| ==> targets[k] == links[k].1
  {
    seq(|links|, k requires 0 <= k < |links| => links[k].1)
  }

  /** `set(screen_link_targets).issubset(set(screen_names))`. */
  predicate LinkedScreensExist(links: seq<(string, string)>, names: seq<string>) {
    ToSet(Targets(links)) <= ToSet(names)
  }

  function TitleErrors(bp: Blueprint, titleGuard: bool): seq<(string, string)> {
    if titleGuard && TitleExceedsWidth(bp) then [("title", TitleTooLongMessage)] else []
  }

  function UniquenessErrors(names: seq<string>): seq<(string, string)> {
    if |names| > 0 && !ScreenNamesAreUnique(names) then [("screens", DuplicateNamesMessage)] else []
  }

  function RecursionErrors(links: seq<(string, string)>): seq<(string, string)> {
    if ScreenLinksAreRecursive(links) then [("screens", SelfLinkMessage)] else []
  }

  function UndefinedLinkErrors(links: seq<(string, string)>, names: seq<string>): seq<(string, string)> {
    if !LinkedScreensExist(links, names) then [("screens", UndefinedLinkMessage)] else []
  }

  /** The errors the custom checks append, in the order the source appends them. */
  function CustomErrors(bp: Blueprint, titleGuard: bool): seq<(string, string)> {
    var names := GetScreenNames(bp);
    var links := GetScreenLinks(bp);
    TitleErrors(bp, titleGuard) + UniquenessErrors(names) + RecursionErrors(links) + UndefinedLinkErrors(links, names)
  }

  /**
   * The verdict of `validate` on a present document and schema; `titleGuard`
   * is the value of `hasattr(document, 'title')`.
   */
  predicate ValidationResult(bp: Blueprint, titleGuard: bool, structurallyValid: bool) {
    var names := GetScreenNames(bp);
    var links := GetScreenLinks(bp);
    && structurallyValid
    && !(titleGuard && TitleExceedsWidth(bp))
    && ScreenNamesAreUnique(names)
    && !ScreenLinksAreRecursive(links)
    && LinkedScreensExist(links, names)
  }

  // ---------------------------------------------------------------------------
  // The validator object

  class NacarValidator {
    /** Cerberus' error list: (field, message) pairs in the order they were raised. */
    var errors: seq<(string, string)>

    constructor ()
      ensures errors == []
    {
      errors := [];
    }

    /** `self._error(field, message)`. */
    method Error(field: string, message: string)
      modifies this
      ensures errors == old(errors) + [(field, message)]
    {
      errors := errors + [(field, message)];
    }

    /**
     * `validate(document, schema)`. A missing document or schema is a
     * RuntimeError (the failure carries its message) and leaves the errors
     * alone. Otherwise Cerberus' verdict and errors are taken as given and
     * each custom check that fails appends its error. `titleGuard` is the
     * condition the title check runs under: HasAttrTitle as written, true
     * once it reads `'title' in document`.
     */
    method Validate(document: Maybe<Blueprint>, schema: Maybe<BlueprintSchema>, titleGuard: bool,
                    structurallyValid: bool, structuralErrors: seq<(string, string)>)
      returns (r: Result<bool, string>)
      modifies this
      ensures document.None? || schema.None? ==>
        r == Failure(MissingInputMessage(document.Some?, schema.Some?)) && errors == old(errors)
      ensures document.Some? && schema.Some? ==>
        && r == Success(ValidationResult(document.value, titleGuard, structurallyValid))
        && errors == structuralErrors + CustomErrors(document.value, titleGuard)
    {
      if document.None? || schema.None? {
        var message := BuildMissingInputMessage(document.Some?, schema.Some?);
        return Failure(message);
      }
      var bp := document.value;

      // Cerberus replaces its errors with those of this run.
      errors := structuralErrors;
      var isValid := structurallyValid;
      var titleExceedsAppWidth := CheckTitle(bp, titleGuard);
      var screenNames := GetScreenNames(bp);
      var screenNamesAreUnique := CheckScreenNamesAreUnique(screenNames);
      var screenLinks := GetScreenLinks(bp);
      var screenLinksAreRecursive := CheckScreenLinksAreRecursive(screenLinks);
      var linkedScreensExist := CheckLinkedScreensExist(screenLinks, screenNames);
      AppendErrors(structuralErrors, TitleErrors(bp, titleGuard), UniquenessErrors(screenNames),
                   RecursionErrors(screenLinks), UndefinedLinkErrors(screenLinks, screenNames));
      return Success(isValid && !titleExceedsAppWidth && screenNamesAreUnique
                     && !screenLinksAreRecursive && linkedScreensExist);
    }

    /** The message of the RuntimeError, built as the source builds it. */
    static method BuildMissingInputMessage(hasDocument: bool, hasSchema: bool) returns (message: string)
      requires !hasDocument || !hasSchema
      ensures message == MissingInputMessage(hasDocument, hasSchema)
    {
      message := NotHanded;
      if !hasDocument && !hasSchema {
        message := message + "schema or a document to validate.";
      } else if !hasDocument && hasSchema {
        message := message + "document to validate.";
      } else if hasDocument && !hasSchema {
        message := message + "schema to validate against.";
      }
    }

    /** The title check: skipped when the guard is false, an error when the title is longer than the width less 4. */
    method CheckTitle(bp: Blueprint, titleGuard: bool) returns (titleExceedsAppWidth: bool)
      modifies this
      ensures titleExceedsAppWidth == (titleGuard && TitleExceedsWidth(bp))
      ensures errors == old(errors) + TitleErrors(bp, titleGuard)
    {
      titleExceedsAppWidth := true;
      if !titleGuard {
        titleExceedsAppWidth := false;
      } else {
        if |bp.title| > bp.meta.width - 4 {
          Error("title", TitleTooLongMessage);
        } else {
          titleExceedsAppWidth := false;
        }
      }
    }

    /** The uniqueness check: false, without an error, when there are no screens. */
    method CheckScreenNamesAreUnique(screenNames: seq<string>) returns (screenNamesAreUnique: bool)
      modifies this
      ensures screenNamesAreUnique == ScreenNamesAreUnique(screenNames)
      ensures errors == old(errors) + UniquenessErrors(screenNames)
    {
      screenNamesAreUnique := false;
      if |screenNames| > 0 {
        screenNamesAreUnique := |screenNames| == |ToSet(screenNames)|;
        if !screenNamesAreUnique {
          Error("screens", DuplicateNamesMessage);
        }
      }
    }

    method CheckScreenLinksAreRecursive(screenLinks: seq<(string, string)>) returns (screenLinksAreRecursive: bool)
      modifies this
      ensures screenLinksAreRecursive == ScreenLinksAreRecursive(screenLinks)
      ensures errors == old(errors) + RecursionErrors(screenLinks)
    {
      screenLinksAreRecursive := 1 in DistinctEnds(screenLinks);
      if screenLinksAreRecursive {
        Error("screens", SelfLinkMessage);
      }
    }

    method CheckLinkedScreensExist(screenLinks: seq<(string, string)>, screenNames: seq<string>)
      returns (linkedScreensExist: bool)
      modifies this
      ensures linkedScreensExist == LinkedScreensExist(screenLinks, screenNames)
      ensures errors == old(errors) + UndefinedLinkErrors(screenLinks, screenNames)
    {
      linkedScreensExist := ToSet(Targets(screenLinks)) <= ToSet(screenNames);
      if !linkedScreensExist {
        Error("screens", UndefinedLinkMessage);
      }
    }
  }

  lemma AppendErrors<T>(s: seq<T>, a: seq<T>, b: seq<T>, c: seq<T>, d: seq<T>)
    ensures s + a + b + c + d == s + (a + b + c + d)
  {
  }

  // ---------------------------------------------------------------------------
  // What the checks mean

  lemma {:induction false} ToSetMembers(names: seq<string>)
    ensures forall n :: n in ToSet(names) <==> n in names
    decreases |names|
  {
    if names != [] {
      ToSetMembers(names[1..]);
      assert forall n :: n in names <==> n == names[0] || n in names[1..];
    }
  }

  /** A list has as many distinct elements as entries exactly when no two entries are equal. */
  lemma {:induction false} UniqueIffDistinct(names: seq<string>)
    ensures |ToSet(names)| <= |names|
    ensures |ToSet(names)| == |names| <==> Distinct(names)
    decreases |names|
  {
    if names != [] {
      var rest := names[1..];
      UniqueIffDistinct(rest);
      ToSetMembers(rest);
      if names[0] in ToSet(rest) {
        assert ToSet(names) == ToSet(rest);
        var k :| 0 <= k < |rest| && rest[k] == names[0];
        assert names[0] == names[k + 1];
      } else {
        assert |ToSet(names)| == |ToSet(rest)| + 1;
        if Distinct(rest) {
          forall i, j | 0 <= i < j < |names|
            ensures names[i] != names[j]
          {
            if i > 0 {
              assert names[i] == rest[i - 1] && names[j] == rest[j - 1];
            } else {
              assert names[j] == rest[j - 1];
            }
          }
        } else {
          var i, j :| 0 <= i < j < |rest| && rest[i] == rest[j];
          assert names[i + 1] == names[j + 1];
        }
      }
    }
  }

  /** The uniqueness check holds exactly for a non-empty list of pairwise different screen names. */
  lemma ScreenNamesAreUniqueMeans(names: seq<string>)
    ensures ScreenNamesAreUnique(names) <==> |names| > 0 && Distinct(names)
  {
    UniqueIffDistinct(names);
  }

  /** The recursion check holds exactly when some screen has a `link` option naming itself. */
  lemma ScreenLinksAreRecursiveMeans(bp: Blueprint)
    ensures ScreenLinksAreRecursive(GetScreenLinks(bp))
        <==> bp.screens.Some? && exists i :: 0 <= i < |bp.screens.value| && ScreenHasLink(bp.screens.value[i], (bp.screens.value[i].name, bp.screens.value[i].name))
  {
    var links := GetScreenLinks(bp);
    var sizes := DistinctEnds(links);
    if ScreenLinksAreRecursive(links) {
      var k :| 0 <= k < |sizes| && sizes[k] == 1;
      assert links[k].0 == links[k].1;
      assert links[k] in links;
    }
    if bp.screens.Some? && exists i :: 0 <= i < |bp.screens.value| && ScreenHasLink(bp.screens.value[i], (bp.screens.value[i].name, bp.screens.value[i].name)) {
      var i :| 0 <= i < |bp.screens.value| && ScreenHasLink(bp.screens.value[i], (bp.screens.value[i].name, bp.screens.value[i].name));
      var name := bp.screens.value[i].name;
      assert (name, name) in links;
      var k :| 0 <= k < |links| && links[k] == (name, name);
      assert {name, name} == {name};
      assert sizes[k] == 1;
    }
  }

  /** The link check holds exactly when every `link` option names a screen of the blueprint. */
  lemma LinkedScreensExistMeans(bp: Blueprint)
    ensures LinkedScreensExist(GetScreenLinks(bp), GetScreenNames(bp))
        <==> forall p :: p in GetScreenLinks(bp) ==> p.1 in GetScreenNames(bp)
  {
    var links := GetScreenLinks(bp);
    var names := GetScreenNames(bp);
    ToSetMembers(Targets(links));
    ToSetMembers(names);
    if LinkedScreensExist(links, names) {
      forall p | p in links
        ensures p.1 in names
      {
        var k :| 0 <= k < |links| && links[k] == p;
        assert Targets(links)[k] == p.1;
      }
    }
    if forall p :: p in links ==> p.1 in names {
      forall t | t in ToSet(Targets(links))
        ensures t in ToSet(names)
      {
        var k :| 0 <= k < |links| && Targets(links)[k] == t;
        assert links[k] in links;
      }
    }
  }

  /**
   * The verdict is true exactly when Cerberus accepted the document, the
   * blueprint has screens, and no custom check appended an error.
   */
  lemma ValidIffNoCustomErrors(bp: Blueprint, titleGuard: bool, structurallyValid: bool)
    ensures ValidationResult(bp, titleGuard, structurallyValid)
        <==> structurallyValid && |GetScreenNames(bp)| > 0 && CustomErrors(bp, titleGuard) == []
  {
    var names := GetScreenNames(bp);
    var links := GetScreenLinks(bp);
    assert |CustomErrors(bp, titleGuard)| == |TitleErrors(bp, titleGuard)| + |UniquenessErrors(names)|
                                           + |RecursionErrors(links)| + |UndefinedLinkErrors(links, names)|;
  }

  /** A blueprint without screens never validates, although no custom check reports it. */
  lemma NoScreensIsInvalid(bp: Blueprint, titleGuard: bool, structurallyValid: bool)
    requires bp.screens.None? || bp.screens.value == []
    ensures !ValidationResult(bp, titleGuard, structurallyValid)
    ensures CustomErrors(bp, titleGuard) == TitleErrors(bp, titleGuard)
  {
    assert GetScreenNames(bp) == [] && GetScreenLinks(bp) == [];
    assert ToSet([]) == {};
    assert DistinctEnds([]) == [];
  }

  // ---------------------------------------------------------------------------
  // The title guard: `hasattr` on a dict is false

  /** `hasattr(document, 'title')`: a parsed blueprint is a dict, and its keys are not attributes. */
  const HasAttrTitle := false

  /** A blueprint whose title is longer than its width allows, and which passes every other check. */
  const LongTitle: Blueprint :=
    Blueprint(seq(100, _ => 'T'), Meta(None, 80, true), Some([Screen("home", Some([Action("quit", "exit 0")]))]))

  lemma LongTitleOtherwiseValid()
    ensures TitleExceedsWidth(LongTitle)
    ensures GetScreenNames(LongTitle) == ["home"]
    ensures GetScreenLinks(LongTitle) == []
    ensures ScreenNamesAreUnique(["home"]) && !ScreenLinksAreRecursive([]) && LinkedScreensExist([], ["home"])
  {
    assert ToSet(["home"]) == {"home"};
    assert ToSet([]) == {};
    assert DistinctEnds([]) == [];
    var links := GetScreenLinks(LongTitle);
    if links != [] {
      assert links[0] in links;
    }
  }

  /**
   * As written, the guard is `hasattr(document, 'title')`, false for the dict
   * a blueprint is: a structurally valid blueprint with a title longer than
   * its width validates, and no title error is raised.
   */
  lemma TitleGuardAsWritten()
    ensures ValidationResult(LongTitle, HasAttrTitle, true)
    ensures CustomErrors(LongTitle, HasAttrTitle) == []
  {
    LongTitleOtherwiseValid();
  }

  /** With the guard `'title' in document`, true of every blueprint, the same blueprint is refused with a title error. */
  lemma TitleGuardCorrected(bp: Blueprint, structurallyValid: bool)
    ensures TitleExceedsWidth(bp) ==> !ValidationResult(bp, true, structurallyValid)
    ensures TitleExceedsWidth(bp) ==> CustomErrors(bp, true)[0] == ("title", TitleTooLongMessage)
    ensures ValidationResult(bp, true, structurallyValid) ==> |bp.title| <= bp.meta.width - 4
  {
  }
}
