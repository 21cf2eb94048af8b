/**
 The `Tags` type of the todo manager: a list of free-text labels whose text
 form is the labels joined with commas (main.go, lines 13-37).

 Text is modelled as `string`. The separator `,` is a single ASCII
 character, so splitting on it char by char is the same as Go's byte-wise
 `strings.Split` on UTF-8 text; byte strings that are not valid UTF-8 are
 not represented.
 */
module Tags {
  import opened Wrappers

  /** No label contains the separator. */
  predicate CommaFree(t: seq<string>)
  {
    forall i :: 0 <= i < |t| ==> ',' !in t[i]
  }

  /** Go's `strings.Join(t, ",")`. */
  function Join(t: seq<string>): string
  {
    if |t| == 0 then ""
    else if |t| == 1 then t[0]
    else t[0] + "," + Join(t[1..])
  }

  /** Position of the first comma of `s`, like Go's `strings.Index(s, ",")`. */
  function FirstComma(s: string): (i: nat)
    requires ',' in s
    ensures i < |s| && s[i] == ','
    ensures ',' !in s[..i]
  {
    if s[0] == ',' then 0
    else
      assert s == [s[0]] + s[1..];
      var j := FirstComma(s[1..]);
      assert s[..j + 1] == [s[0]] + s[1..][..j];
      j + 1
  }

  /**
   Go's `strings.Split(s, ",")`: the pieces between the commas of `s`. There
   is always one more piece than there are commas, so even the empty text
   gives one (empty) piece. The pieces are exactly what joining undoes.
   */
  function Split(s: string): (r: seq<string>)
    ensures |r| == multiset(s)[','] + 1
    ensures CommaFree(r)
    ensures Join(r) == s
    decreases |s|
  {
    if ',' !in s then [s]
    else
      var i := FirstComma(s);
      var rest := Split(s[i + 1..]);
      assert s == s[..i] + [','] + s[i + 1..];
      assert multiset(s)[','] == multiset(s[..i])[','] + 1 + multiset(s[i + 1..])[','];
      assert forall k :: 1 <= k < |rest| + 1 ==> ([s[..i]] + rest)[k] == rest[k - 1];
      [s[..i]] + rest
  }

  /** `Tags.MarshalText` (main.go:25-27): never fails. */
  function MarshalText(t: seq<string>): string
  {
    Join(t)
  }

  /**
   The tag list that `Tags.UnmarshalText` stores (main.go:29-37): none for
   the empty text, otherwise the comma-separated pieces. Whatever the text,
   marshalling the result gives that text back.
   */
  function ParseTags(text: string): (r: seq<string>)
    ensures MarshalText(r) == text
    ensures CommaFree(r)
    ensures |r| == if text == [] then 0 else multiset(text)[','] + 1
    ensures text != [] ==> r == Split(text)
  {
    if |text| == 0 then [] else Split(text)
  }

  /** The tag lists that survive a marshal/unmarshal round trip. */
  predicate Canonical(t: seq<string>)
  {
    CommaFree(t) && t != [""]
  }

  /** Splitting a text that starts with a comma-free piece and a comma. */
  lemma SplitFirstPiece(a: string, b: string)
    requires ',' !in a
    ensures Split(a + "," + b) == [a] + Split(b)
  {
    var s := a + "," + b;
    assert s[|a|] == ',';
    var i := FirstComma(s);
    assert forall k :: 0 <= k < |a| ==> s[k] == a[k];
    assert i <= |a| ==> s[..i] == a[..i];
    assert s[..i] == a;
    assert s[i + 1..] == b;
  }

  /** Splitting undoes joining when no label holds a comma. */
  lemma {:induction false} SplitJoin(t: seq<string>)
    requires |t| >= 1 && CommaFree(t)
    ensures Split(Join(t)) == t
  {
    if |t| > 1 {
      assert ',' !in t[0];
      SplitFirstPiece(t[0], Join(t[1..]));
      assert CommaFree(t[1..]) by {
        forall i | 0 <= i < |t[1..]| ensures ',' !in t[1..][i] {
          assert t[1..][i] == t[i + 1];
        }
      }
      SplitJoin(t[1..]);
      assert [t[0]] + t[1..] == t;
    }
  }

  /**
   Unmarshalling the marshalled text gives the list back exactly when no
   label holds a comma and the list is not the single empty label; `[""]`
   comes back as `[]`.
   */
  lemma RoundTrip(t: seq<string>)
    ensures ParseTags(MarshalText(t)) == t <==> Canonical(t)
    ensures t == [""] ==> ParseTags(MarshalText(t)) == []
  {
    if Canonical(t) && t != [] {
      assert MarshalText(t) != [] by {
        if |t| == 1 {
          assert t[0] != "";
        } else {
          assert MarshalText(t)[|t[0]|] == ',';
        }
      }
      SplitJoin(t);
    }
  }

  /** Normalising a tag list through its text form twice is the same as once. */
  lemma NormaliseIdempotent(t: seq<string>)
    ensures ParseTags(MarshalText(ParseTags(MarshalText(t)))) == ParseTags(MarshalText(t))
  {
  }

  /**
   A variable of type `Tags` used through its address (`*Tags`): `String`,
   `Set` and `UnmarshalText` take a `*Tags` receiver, and the last two
   replace the list stored in the variable.
   */
  class TagsVar {
    var tags: seq<string>

    /** `var tags Tags`: the nil slice, with no labels. */
    constructor ()
      ensures tags == []
    {
      tags := [];
    }

    /** `Tags.String` (main.go:15-17): the same text as `MarshalText`. */
    function String(): (r: string)
      reads this
      ensures r == MarshalText(tags)
    {
      Join(tags)
    }

    /**
     `Tags.Set` (main.go:19-23), the flag package's hook: appends every
     comma-separated piece of `value`, one more than its commas, after the
     labels already present, and never fails. `Set("")` appends one empty
     label.
     */
    method Set(value: string) returns (err: Option<string>)
      modifies this
      ensures tags == old(tags) + Split(value)
      ensures |tags| == |old(tags)| + multiset(value)[','] + 1
      ensures tags[..|old(tags)|] == old(tags)
      ensures value == "" ==> tags == old(tags) + [""]
      ensures err == None
    {
      var parts := Split(value);
      tags := tags + parts;
      err := None;
    }

    /**
     `Tags.UnmarshalText` (main.go:29-37): replaces the list by the pieces of
     `text`, or by no labels when `text` is empty, and never fails.
     */
    method UnmarshalText(text: string) returns (err: Option<string>)
      modifies this
      ensures tags == ParseTags(text)
      ensures text == "" ==> tags == []
      ensures MarshalText(tags) == text
      ensures err == None
    {
      if |text| == 0 {
        tags := [];
        return None;
      }
      var parts := Split(text);
      tags := parts;
      err := None;
    }
  }
}
