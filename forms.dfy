/** The checks the account form and the join form apply to what was typed,
    before anything is stored or sent to the backend. */
module Forms {
  import opened Records
  import opened Text

  /** What the account form makes of the typed name. */
  datatype NameVerdict = Accepted(name: string) | Rejected(notice: Notice)

  /** The "continue" check: trim the input, refuse it when nothing is left, refuse
      it when fewer than two UTF-16 code units are left, and otherwise accept the
      trimmed name. */
  function CheckName(input: string): (v: NameVerdict)
    ensures v.Accepted? <==> Utf16Length(Trim(input)) >= 2
    ensures v.Accepted? ==> v.name == Trim(input)
    ensures v == Rejected(EnterName) <==> Trim(input) == []
    ensures v.Rejected? ==> v.notice in {EnterName, NameTooShort}
  {
    var account := Trim(input);
    if account == [] then Rejected(EnterName)
    else if Utf16Length(account) < 2 then Rejected(NameTooShort)
    else Accepted(account)
  }

  /** An accepted name is two characters or more, or one character outside the
      basic multilingual plane, and it has no white space at either end. */
  lemma AcceptedNameShape(input: string)
    requires CheckName(input).Accepted?
    ensures var n := CheckName(input).name;
      && (|n| >= 2 || (|n| == 1 && n[0] as int > 0xFFFF))
      && !IsJsSpace(n[0]) && !IsJsSpace(n[|n| - 1])
  {
    AtLeastTwoUnits(Trim(input));
    TrimIsTrimOf(input);
  }

  /** Typing an accepted name again is accepted with the same name: the check
      is a fixed point on what it stores. */
  lemma AcceptedNameIsStable(input: string)
    requires CheckName(input).Accepted?
    ensures CheckName(CheckName(input).name) == CheckName(input)
  {
    TrimIdempotent(input);
  }

  /** The join form's key entry: trimmed, then upper-cased. */
  function NormaliseKey(input: string): (k: string)
    ensures |k| == |Trim(input)| <= |input|
    ensures forall i :: 0 <= i < |k| ==> !('a' <= k[i] <= 'z')
  {
    ToUpper(Trim(input))
  }

  /** A normalised key has no white space at its ends, and normalising it again
      changes nothing. */
  lemma NormaliseKeyIdempotent(input: string)
    ensures Trim(NormaliseKey(input)) == NormaliseKey(input)
    ensures NormaliseKey(NormaliseKey(input)) == NormaliseKey(input)
  {
    var k := NormaliseKey(input);
    ToUpperKeepsTrim(input);
    assert ToUpper(k) == k;
  }

  /** The lookup the join form asks for, or nothing when either trimmed field is
      empty. */
  function JoinQuery(accountInput: string, keyInput: string): (q: Option<SessionQuery>)
    ensures q.None? <==> Trim(accountInput) == [] || Trim(keyInput) == []
    ensures q.Some? ==> q.value.creatorAccount == Trim(accountInput) && q.value.key == NormaliseKey(keyInput)
  {
    var account := Trim(accountInput);
    var key := NormaliseKey(keyInput);
    if account == [] || key == [] then None else Some(SessionQuery(key, account))
  }
}
