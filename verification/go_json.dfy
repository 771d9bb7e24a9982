/** What `json.Marshal` does with a flat Go struct whose fields are integers
    and strings: a compact object (no whitespace) holding one member per
    EXPORTED field, in declaration order, keyed by the field's `json` tag
    (or its Go name when untagged). Unexported fields are skipped whatever
    their tag says. Tags are plain names: options after a comma and the
    skip tag `-` are not modelled. */
module GoJson {
  import opened Common
  import Decimal

  datatype Value = IntValue(i: int) | StringValue(s: string)

  /** A struct field: its Go name, the name given in its `json:"..."` tag
      ("" when it has none; a plain name, with no `,option` and not `-`)
      and its value. */
  datatype Field = Field(name: string, tag: string, value: Value)

  /** Go exports an identifier that starts with an upper-case letter; only
      ASCII `A` to `Z` is modelled (every field name of the core is ASCII). */
  predicate IsExported(f: Field) {
    |f.name| > 0 && 'A' <= f.name[0] <= 'Z'
  }

  function Key(f: Field): string {
    if f.tag != "" then f.tag else f.name
  }

  /** Text that `encoding/json` copies into a string literal unchanged
      includes printable ASCII other than the quote, the backslash and the
      HTML-sensitive `<`, `>` and `&`. (Valid non-ASCII UTF-8 other than
      U+2028 and U+2029 is copied too; this model does not use it.) */
  predicate NeedsNoEscape(s: string) {
    forall i :: 0 <= i < |s| ==> ' ' <= s[i] <= '~' && s[i] !in "\"\\<>&"
  }

  /** Every key and string value that will be written needs no escaping. */
  predicate Encodable(fields: seq<Field>) {
    forall i :: 0 <= i < |fields| && IsExported(fields[i]) ==>
      NeedsNoEscape(Key(fields[i])) &&
      (fields[i].value.StringValue? ==> NeedsNoEscape(fields[i].value.s))
  }

  function EncodeValue(v: Value): string {
    match v
    case IntValue(i) => Decimal.FormatInt(i)
    case StringValue(s) => "\"" + s + "\""
  }

  function Member(f: Field): string {
    "\"" + Key(f) + "\":" + EncodeValue(f.value)
  }

  /** The comma-separated members of the exported fields, in order. */
  function MembersText(fields: seq<Field>): string
    decreases |fields|
  {
    if fields == [] then ""
    else
      var rest := MembersText(fields[1..]);
      if !IsExported(fields[0]) then rest
      else if rest == "" then Member(fields[0])
      else Member(fields[0]) + "," + rest
  }

  /** `json.Marshal(v)` for a struct value `v`; it cannot fail for integer
      and string fields. */
  function Marshal(fields: seq<Field>): (r: Result<string>)
    requires Encodable(fields)
    ensures r.Ok?
    ensures |r.value| >= 2 && r.value[0] == '{' && r.value[|r.value| - 1] == '}'
  {
    Ok("{" + MembersText(fields) + "}")
  }

  lemma {:induction false} MembersTextEmptyIff(fields: seq<Field>)
    ensures MembersText(fields) == "" <==> forall i :: 0 <= i < |fields| ==> !IsExported(fields[i])
    decreases |fields|
  {
    if fields != [] {
      MembersTextEmptyIff(fields[1..]);
      assert forall i :: 1 <= i < |fields| ==> fields[i] == fields[1..][i - 1];
    }
  }

  /** The object is empty exactly when the struct has no exported field. */
  lemma MarshalEmptyIff(fields: seq<Field>)
    requires Encodable(fields)
    ensures Marshal(fields).value == "{}" <==> forall i :: 0 <= i < |fields| ==> !IsExported(fields[i])
  {
    MembersTextEmptyIff(fields);
    assert "{" + MembersText(fields) + "}" == "{}" <==> MembersText(fields) == "";
  }

  lemma {:induction false} MembersTextIgnoresUnexported(fields: seq<Field>, k: nat, v: Value)
    requires k < |fields| && !IsExported(fields[k])
    ensures MembersText(fields[k := fields[k].(value := v)]) == MembersText(fields)
    decreases k
  {
    var changed := fields[k := fields[k].(value := v)];
    if k > 0 {
      MembersTextIgnoresUnexported(fields[1..], k - 1, v);
      assert changed[1..] == fields[1..][k - 1 := fields[k].(value := v)];
    } else {
      assert changed[1..] == fields[1..];
    }
  }

  /** The value of an unexported field never reaches the output. */
  lemma MarshalIgnoresUnexported(fields: seq<Field>, k: nat, v: Value)
    requires Encodable(fields)
    requires k < |fields| && !IsExported(fields[k])
    ensures Encodable(fields[k := fields[k].(value := v)])
    ensures Marshal(fields[k := fields[k].(value := v)]) == Marshal(fields)
  {
    MembersTextIgnoresUnexported(fields, k, v);
  }

  /** Two exported fields are written in declaration order, comma-separated. */
  lemma MarshalTwoExported(f: Field, g: Field)
    requires IsExported(f) && IsExported(g) && Encodable([f, g])
    ensures Marshal([f, g]).value == "{" + Member(f) + "," + Member(g) + "}"
  {
    assert [f, g][1..] == [g];
    MarshalOneExported(g);
    assert MembersText([g]) == Member(g);
    assert Member(g)[0] == '"';
  }

  /** A single exported field gives a one-member object. */
  lemma MarshalOneExported(f: Field)
    requires IsExported(f) && Encodable([f])
    ensures Marshal([f]).value == "{" + Member(f) + "}"
  {
    assert [f][1..] == [];
    assert MembersText([]) == "";
  }

  /** Lower-case ASCII text is written as is. */
  lemma LowerCaseNeedsNoEscape(s: string)
    requires forall i :: 0 <= i < |s| ==> 'a' <= s[i] <= 'z'
    ensures NeedsNoEscape(s)
  {
  }
}
