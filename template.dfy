// The page template split of server.js: parseIndex cuts the HTML produced by
// the bundler around its content marker.
module Template {
  import opened Js

  /** Where the rendered application goes in the template. */
  const Marker: string := "<!-- APP -->"

  /** The two halves written around the rendered markup. */
  datatype IndexHTML = IndexHTML(head: string, tail: string)

  /** parseIndex: `head` is the template up to the first marker, `tail` what
      follows it. The index of the marker is used unchecked, so a template
      without a marker is cut at -1 and 11 (see ParseIndexWithoutMarker). */
  function ParseIndex(template: string): (r: IndexHTML)
    ensures r.head <= template
    ensures |r.tail| <= |template| && r.tail == template[|template| - |r.tail|..]
    ensures IndexOf(template, Marker) != -1 ==>
      |r.head| == IndexOf(template, Marker) && |r.head| + |Marker| + |r.tail| == |template|
  {
    var i := IndexOf(template, Marker);
    IndexHTML(Slice(template, 0, i), SliceFrom(template, i + |Marker|))
  }

  /** With a marker present, the halves are exactly what lies before and after
      its first occurrence, and no marker is left in the head. */
  lemma {:induction false} ParseIndexSplitsAtFirstMarker(template: string)
    requires Contains(template, Marker)
    ensures var r := ParseIndex(template);
      r.head + Marker + r.tail == template
      && !Contains(r.head, Marker)
      && template[..|r.head|] == r.head
  {
    var i := IndexOf(template, Marker);
    var r := ParseIndex(template);
    assert r.head == template[..i];
    assert r.tail == template[i + |Marker|..];
    assert template == template[..i] + template[i..i + |Marker|] + template[i + |Marker|..];
    NothingBeforeFirst(template, i);
  }

  /** A prefix that ends before the first marker holds no marker. */
  lemma {:induction false} NothingBeforeFirst(template: string, i: nat)
    requires i <= |template|
    requires forall k :: 0 <= k < i ==> !OccursAt(template, Marker, k)
    ensures !Contains(template[..i], Marker)
  {
    forall j | OccursAt(template[..i], Marker, j)
      ensures false
    {
      assert template[..i][j..j + |Marker|] == template[j..j + |Marker|];
      assert OccursAt(template, Marker, j);
    }
  }

  /** Without a marker, indexOf yields -1: the head is `slice(0, -1)`, the
      template minus its last character, and the tail is `slice(11)`, the
      template from index 11 on (empty when it is no longer than that). */
  lemma {:induction false} ParseIndexWithoutMarker(template: string)
    requires !Contains(template, Marker)
    ensures var r := ParseIndex(template);
      r.head == (if |template| == 0 then [] else template[..|template| - 1])
      && r.tail == (if |template| <= 11 then [] else template[11..])
  {
    assert IndexOf(template, Marker) == -1;
  }

  /** The halves put back around the marker give the template back exactly
      when the template has a marker. */
  lemma {:induction false} ParseIndexRoundTripIff(template: string)
    ensures var r := ParseIndex(template);
      r.head + Marker + r.tail == template <==> Contains(template, Marker)
  {
    var r := ParseIndex(template);
    if Contains(template, Marker) {
      ParseIndexSplitsAtFirstMarker(template);
    } else {
      MarkerOccursInJoin(r.head, r.tail);
    }
  }

  lemma {:induction false} MarkerOccursInJoin(head: string, tail: string)
    ensures OccursAt(head + Marker + tail, Marker, |head|)
  {
    assert (head + Marker + tail)[|head|..|head| + |Marker|] == Marker;
  }

  /** Only the first marker splits: any later one, starting at or after the
      end of the first, is still in the tail. */
  lemma {:induction false} ParseIndexKeepsLaterMarkers(template: string, j: int)
    requires OccursAt(template, Marker, j)
    requires j >= IndexOf(template, Marker) + |Marker|
    ensures Contains(ParseIndex(template).tail, Marker)
  {
    var i := IndexOf(template, Marker);
    var tail := ParseIndex(template).tail;
    assert tail == template[i + |Marker|..];
    var t := j - (i + |Marker|);
    assert tail[t..t + |Marker|] == template[j..j + |Marker|];
    assert OccursAt(tail, Marker, t);
  }
}
