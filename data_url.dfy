/**
 * The string handling at the end of `blobToBase64` (VoiceRecorderImpl.ts):
 * the browser's `FileReader` turns the recording into a data URL
 * (RFC 2397, section 3: `data:<mediatype>;base64,<data>`), and the code
 * keeps `split('base64,')[1]` when there is such a piece, else the whole
 * text, and `trim()`s the result. `split` and `trim` are modelled with
 * ECMAScript's meaning; the reader itself is not part of this model.
 */
module DataUrl {
  import opened Options

  const Marker: string := "base64,"

  /** `pat` occurs in `s` starting at position `k`. */
  predicate OccursAt(s: string, pat: string, k: int)
  {
    0 <= k && k + |pat| <= |s| && s[k..k + |pat|] == pat
  }

  ghost predicate Contains(s: string, pat: string)
  {
    exists k :: OccursAt(s, pat, k)
  }

  /** `String.prototype.indexOf(pat, from)`, with `None` for -1. */
  function IndexOf(s: string, pat: string, from: nat): (r: Option<nat>)
    requires from <= |s|
    ensures r.Some? ==> from <= r.value && OccursAt(s, pat, r.value)
    ensures r.Some? ==> forall k :: from <= k < r.value ==> !OccursAt(s, pat, k)
    ensures r.None? ==> forall k :: from <= k ==> !OccursAt(s, pat, k)
    decreases |s| - from
  {
    if OccursAt(s, pat, from) then Some(from)
    else if from == |s| then None
    else IndexOf(s, pat, from + 1)
  }

  /** `String.prototype.split(sep)` for a non-empty separator. */
  function Split(s: string, sep: string): (parts: seq<string>)
    requires |sep| > 0
    ensures |parts| >= 1
    ensures forall i :: 0 <= i < |parts| ==> !Contains(parts[i], sep)
    ensures |parts| == 1 <==> !Contains(s, sep)
    decreases |s|
  {
    match IndexOf(s, sep, 0)
    case None => [s]
    case Some(i) =>
      var head := s[..i];
      assert !Contains(head, sep) by {
        forall k ensures !OccursAt(head, sep, k) {
          if OccursAt(head, sep, k) {
            assert k < i;
            assert s[k..k + |sep|] == head[k..k + |sep|];
            assert OccursAt(s, sep, k);
          }
        }
      }
      [head] + Split(s[i + |sep|..], sep)
  }

  /** `Array.prototype.join(sep)`: the partner of `Split`. */
  function Join(parts: seq<string>, sep: string): string
    requires |parts| >= 1
  {
    if |parts| == 1 then parts[0] else parts[0] + sep + Join(parts[1..], sep)
  }

  lemma JoinCons(head: string, tail: seq<string>, sep: string)
    requires |tail| >= 1
    ensures Join([head] + tail, sep) == head + sep + Join(tail, sep)
  {
  }

  lemma SliceThree(s: string, i: int, j: int)
    requires 0 <= i <= j <= |s|
    ensures s == s[..i] + s[i..j] + s[j..]
  {
  }

  /** Splitting loses nothing: joining the pieces with the separator gives back the text. */
  lemma {:induction false} JoinSplit(s: string, sep: string)
    requires |sep| > 0
    ensures Join(Split(s, sep), sep) == s
    decreases |s|
  {
    match IndexOf(s, sep, 0)
    case None =>
    case Some(i) =>
      var rest := s[i + |sep|..];
      var tail := Split(rest, sep);
      assert Split(s, sep) == [s[..i]] + tail;
      JoinSplit(rest, sep);
      JoinCons(s[..i], tail, sep);
      SliceThree(s, i, i + |sep|);
  }

  /** The code points `String.prototype.trim` removes: ECMAScript's WhiteSpace and LineTerminator. */
  predicate IsTrimmable(c: char)
  {
    var n := c as int;
    n == 0x09 || n == 0x0A || n == 0x0B || n == 0x0C || n == 0x0D || n == 0x20 || n == 0xA0
    || n == 0x1680 || (0x2000 <= n <= 0x200A) || n == 0x2028 || n == 0x2029 || n == 0x202F
    || n == 0x205F || n == 0x3000 || n == 0xFEFF
  }

  function TrimStart(s: string): (r: string)
    ensures |r| <= |s| && r == s[|s| - |r|..]
    ensures forall i :: 0 <= i < |s| - |r| ==> IsTrimmable(s[i])
    ensures r == [] || !IsTrimmable(r[0])
  {
    if s != [] && IsTrimmable(s[0]) then TrimStart(s[1..]) else s
  }

  function TrimEnd(s: string): (r: string)
    ensures |r| <= |s| && r == s[..|r|]
    ensures forall i :: |r| <= i < |s| ==> IsTrimmable(s[i])
    ensures r == [] || !IsTrimmable(r[|r| - 1])
  {
    if s != [] && IsTrimmable(s[|s| - 1]) then TrimEnd(s[..|s| - 1]) else s
  }

  /** `String.prototype.trim`: the longest slice of `s` without trimmable ends. */
  function Trim(s: string): (r: string)
    ensures exists lo, hi :: 0 <= lo <= hi <= |s| && r == s[lo..hi]
                             && (forall i :: 0 <= i < lo ==> IsTrimmable(s[i]))
                             && (forall i :: hi <= i < |s| ==> IsTrimmable(s[i]))
    ensures r == [] || (!IsTrimmable(r[0]) && !IsTrimmable(r[|r| - 1]))
  {
    var t := TrimStart(s);
    var r := TrimEnd(t);
    var lo := |s| - |t|;
    assert r == s[lo..lo + |r|];
    r
  }

  /** A text with no trimmable code point is its own trim. */
  lemma TrimClean(s: string)
    requires forall i :: 0 <= i < |s| ==> !IsTrimmable(s[i])
    ensures Trim(s) == s
  {
  }

  /** The payload `blobToBase64` resolves with: the piece after the first marker, or the whole text. */
  function ExtractBase64(readerResult: string): (r: string)
    ensures !Contains(readerResult, Marker) ==> r == Trim(readerResult)
    ensures IndexOf(readerResult, Marker, 0).Some? ==>
              var i := IndexOf(readerResult, Marker, 0).value;
              r == Trim(Split(readerResult[i + |Marker|..], Marker)[0])
    ensures r == [] || (!IsTrimmable(r[0]) && !IsTrimmable(r[|r| - 1]))
  {
    var parts := Split(readerResult, Marker);
    var toResolve := if |parts| > 1 then parts[1] else readerResult;
    assert IndexOf(readerResult, Marker, 0).Some? ==>
             toResolve == Split(readerResult[IndexOf(readerResult, Marker, 0).value + |Marker|..], Marker)[0];
    Trim(toResolve)
  }

  /** Characters of the base64 alphabet (RFC 4648, section 4), padding included. */
  predicate IsBase64Char(c: char)
  {
    ('A' <= c <= 'Z') || ('a' <= c <= 'z') || ('0' <= c <= '9') || c == '+' || c == '/' || c == '='
  }

  /** The data URL a `FileReader` produces for a blob of type `mimeType`. */
  function DataUrlOf(mimeType: string, payload: string): string
  {
    "data:" + mimeType + ";base64," + payload
  }

  /** Every occurrence of the marker ends in a comma. */
  lemma MarkerEndsInComma(s: string, k: int)
    requires OccursAt(s, Marker, k)
    ensures s[k + 6] == ','
  {
  }

  /** A text without commas cannot contain the marker. */
  lemma NoCommaNoMarker(s: string)
    requires ',' !in s
    ensures !Contains(s, Marker)
  {
    forall k ensures !OccursAt(s, Marker, k) {
      if OccursAt(s, Marker, k) {
        MarkerEndsInComma(s, k);
      }
    }
  }

  /** In a data URL whose media type has no comma, the first marker is the one that ends the header. */
  lemma {:induction false} FirstMarkerOfDataUrl(mimeType: string, payload: string)
    requires ',' !in mimeType
    ensures IndexOf(DataUrlOf(mimeType, payload), Marker, 0) == Some(|mimeType| + 6)
  {
    var s := DataUrlOf(mimeType, payload);
    var pre := "data:" + mimeType + ";base64";
    var p := |mimeType| + 6;
    assert s == pre + "," + payload;
    assert ',' !in pre;
    assert OccursAt(s, Marker, p) by {
      assert s[p..p + |Marker|] == Marker;
    }
    forall k | 0 <= k < p ensures !OccursAt(s, Marker, k) {
      if OccursAt(s, Marker, k) {
        MarkerEndsInComma(s, k);
      }
    }
  }

  /**
   * Round trip: for a media type without commas and a base64 payload, the
   * extraction gives back exactly the payload the reader encoded.
   */
  lemma {:induction false} ExtractDataUrl(mimeType: string, payload: string)
    requires ',' !in mimeType
    requires forall i :: 0 <= i < |payload| ==> IsBase64Char(payload[i])
    ensures ExtractBase64(DataUrlOf(mimeType, payload)) == payload
  {
    var s := DataUrlOf(mimeType, payload);
    var p := |mimeType| + 6;
    FirstMarkerOfDataUrl(mimeType, payload);
    assert s[p + |Marker|..] == payload;
    assert ',' !in payload by {
      forall i | 0 <= i < |payload| ensures payload[i] != ',' {
        assert IsBase64Char(payload[i]);
      }
    }
    NoCommaNoMarker(payload);
    assert Split(payload, Marker) == [payload];
    assert Split(s, Marker) == [s[..p], payload];
    forall i | 0 <= i < |payload| ensures !IsTrimmable(payload[i]) {
      assert IsBase64Char(payload[i]);
    }
    TrimClean(payload);
  }
}
