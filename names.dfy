/**
 * The name check the menu, category and ingredient forms share: a name that
 * is blank after trimming is refused, and so is one that matches another
 * entry's name once both are trimmed and lower-cased.
 */
module Names {
  import opened Types
  import opened Text

  /** Some name among `others` has the same trimmed, lower-cased form as `name`. */
  predicate Taken(name: string, others: seq<string>)
  {
    exists i :: 0 <= i < |others| && Normalize(others[i]) == Normalize(name)
  }

  /** Blank first, then duplicate; None lets the save go on. */
  function NameError(name: string, others: seq<string>): (r: Option<Error>)
    ensures r == Some(BlankName) <==> forall i :: 0 <= i < |name| ==> IsSpace(name[i])
    ensures r == Some(DuplicateName) <==> Trim(name) != "" && Taken(name, others)
    ensures r.None? <==> Trim(name) != "" && !Taken(name, others)
    ensures r.Some? ==> r.value in {BlankName, DuplicateName}
  {
    TrimEmptyIffBlank(name);
    if Normalize(name) == "" then Some(BlankName)
    else if Taken(name, others) then Some(DuplicateName)
    else None
  }

  /** The check sees a name only through its trimmed, lower-cased form. */
  lemma NameErrorSeesOnlyTheKey(a: string, b: string, others: seq<string>)
    requires Normalize(a) == Normalize(b)
    ensures NameError(a, others) == NameError(b, others)
  {
    TrimEmptyIffBlank(a);
    TrimEmptyIffBlank(b);
  }

  /** A name that was accepted and stored trimmed is refused the next time, in any spelling with the same key. */
  lemma AcceptedNameIsTaken(name: string, again: string, others: seq<string>)
    requires NameError(name, others).None?
    requires Normalize(again) == Normalize(name)
    ensures NameError(again, others + [Trim(name)]) == Some(DuplicateName)
  {
    var all := others + [Trim(name)];
    TrimOfTrimmed(Trim(name));
    assert Normalize(all[|others|]) == Normalize(again);
    TrimEmptyIffBlank(again);
  }
}
