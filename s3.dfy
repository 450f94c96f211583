/**
 * The pure part of the object-storage service: reading a base64 data URI into
 * an upload (`base64ToFile`, a loose reading of the `data:` URL grammar of
 * section 3 of RFC 2397), the object key and public URL of an upload, and the
 * all-or-nothing batch upload. The storage calls themselves are foreign: the
 * batch upload takes the store's per-key verdict as a parameter.
 */
module S3 {
  import opened Common
  import opened StorageUrl

  /**
   * What `base64ToFile` hands to the uploader. The payload stays base64 text:
   * decoding it into bytes is not modelled.
   */
  datatype UploadFile = UploadFile(payload: string, originalName: string, mimeType: string)

  /** The characters JavaScript's `.` does not match. */
  predicate IsLineTerminator(c: char) {
    c == '\n' || c == '\r' || c == '\U{2028}' || c == '\U{2029}'
  }

  /** Where `(.*?)(;|$)` started at `i` stops: the first ';' or the end, unless a line terminator comes first. */
  function ValueEnd(h: string, i: nat): (e: Option<nat>)
    requires i <= |h|
    ensures e.Some? ==> i <= e.value <= |h| && (e.value == |h| || h[e.value] == ';')
    ensures e.Some? ==> forall j :: i <= j < e.value ==> h[j] != ';' && !IsLineTerminator(h[j])
    decreases |h| - i
  {
    if i == |h| then Some(i)
    else if h[i] == ';' then Some(i)
    else if IsLineTerminator(h[i]) then None
    else ValueEnd(h, i + 1)
  }

  /** The text "name=" starts at position `i` of `h`. */
  predicate NameAt(h: string, i: nat) {
    i + 5 <= |h| && h[i..i + 5] == "name="
  }

  /** Group 1 of the leftmost match of `/name=(.*?)(;|$)/` starting at or after `from`. */
  function NameMatch(h: string, from: nat): Option<string>
    decreases |h| - from
  {
    if from + 5 > |h| then None
    else if NameAt(h, from) then
      match ValueEnd(h, from + 5)
      case Some(e) => Some(h[from + 5..e])
      case None => NameMatch(h, from + 1)
    else NameMatch(h, from + 1)
  }

  /** `header.split(';')[0].split(':')[1] || 'image/jpeg'`. */
  function MimeTypeOf(header: string): (m: string)
    ensures m != "" && ':' !in m
  {
    var cs := Split(Split(header, ';')[0], ':');
    if |cs| > 1 && cs[1] != "" then cs[1] else "image/jpeg"
  }

  /** `mimeType.split('/')[1] || 'jpg'`. */
  function Subtype(mime: string): string {
    var ss := Split(mime, '/');
    if |ss| > 1 && ss[1] != "" then ss[1] else "jpg"
  }

  /** `image-<now>.<subtype>`, the name used when the header names no file. */
  function DefaultName(mime: string, now: nat): string {
    "image-" + NatToString(now) + "." + Subtype(mime)
  }

  /**
   * `base64ToFile`: null for an empty URI, for one without the text "base64",
   * and for one with nothing between its first and second commas; otherwise
   * the payload is that text, and the MIME type and file name come from the
   * header before the first comma.
   */
  function Base64ToFile(uri: string, now: nat): (r: Option<UploadFile>)
    ensures r.Some? ==> uri != "" && Contains(uri, "base64")
    ensures r.Some? ==> r.value.payload != "" && ',' !in r.value.payload
    ensures r.Some? ==> r.value.mimeType != "" && r.value.originalName != ""
  {
    if uri == "" then None
    else if !Contains(uri, "base64") then None
    else
      var parts := Split(uri, ',');
      if |parts| < 2 || parts[1] == "" then None
      else
        var header := parts[0];
        var mime := MimeTypeOf(header);
        var name :=
          match NameMatch(header, 0)
          case Some(n) => if n != "" then n else DefaultName(mime, now)
          case None => DefaultName(mime, now);
        Some(UploadFile(parts[1], name, mime))
  }

  // ---------------------------------------------------------------------------
  // The writer side: a data URI as a client builds one, and its round trip.
  // ---------------------------------------------------------------------------

  /** `data:<mime>[;name=<name>];base64,<payload>`. */
  function DataUri(mime: string, name: Option<string>, payload: string): string {
    "data:" + mime + (if name.Some? then ";name=" + name.value else "") + ";base64," + payload
  }

  predicate WellFormedMime(mime: string) {
    mime != "" && ';' !in mime && ',' !in mime && ':' !in mime && '=' !in mime
  }

  predicate WellFormedName(name: string) {
    name != "" && ';' !in name && ',' !in name && forall i :: 0 <= i < |name| ==> !IsLineTerminator(name[i])
  }

  /** No "name=" starts in [from, k): the search resumes at k. */
  lemma {:induction false} NameMatchSkip(h: string, from: nat, k: nat)
    requires from <= k
    requires forall i :: from <= i < k ==> !NameAt(h, i)
    ensures NameMatch(h, from) == NameMatch(h, k) || (NameMatch(h, from) == None && k + 5 > |h|)
    decreases k - from
  {
    if from < k {
      NameMatchSkip(h, from + 1, k);
    }
  }

  /** A header without '=' names no file. */
  lemma {:induction false} NoEqualsNoName(h: string, from: nat)
    requires '=' !in h
    ensures NameMatch(h, from) == None
    decreases |h| - from
  {
    if from + 5 <= |h| {
      assert h[from..from + 5][4] == h[from + 4];
      NoEqualsNoName(h, from + 1);
    }
  }

  /** A name without ';' or line terminators followed by ';' is read whole. */
  lemma {:induction false} ValueEndAfterName(h: string, i: nat, name: string)
    requires i + |name| < |h| && h[i..i + |name|] == name && h[i + |name|] == ';'
    requires ';' !in name && forall j :: 0 <= j < |name| ==> !IsLineTerminator(name[j])
    ensures ValueEnd(h, i) == Some(i + |name|)
    decreases |name|
  {
    if name != [] {
      assert h[i] == name[0];
      assert h[i + 1..i + 1 + |name[1..]|] == name[1..];
      ValueEndAfterName(h, i + 1, name[1..]);
    }
  }

  /** The header of a well-formed data URI: split off mime type, then the name parameter. */
  lemma HeaderParts(mime: string, name: Option<string>)
    requires WellFormedMime(mime)
    ensures var header := "data:" + mime + (if name.Some? then ";name=" + name.value else "") + ";base64";
      MimeTypeOf(header) == mime
  {
    var rest := (if name.Some? then "name=" + name.value + ";" else "") + "base64";
    var header := "data:" + mime + (if name.Some? then ";name=" + name.value else "") + ";base64";
    assert header == ("data:" + mime) + [';'] + rest;
    assert ';' !in "data:" + mime;
    SplitAfterPiece("data:" + mime, rest, ';');
    assert Split(header, ';')[0] == "data:" + mime;
    assert "data:" + mime == "data" + [':'] + mime;
    SplitAfterPiece("data", mime, ':');
    SplitNoSeparator(mime, ':');
  }

  /** The header of a data URI that names its file yields that name. */
  lemma NamedHeader(mime: string, n: string)
    requires WellFormedMime(mime) && WellFormedName(n)
    ensures NameMatch("data:" + mime + ";name=" + n + ";base64", 0) == Some(n)
  {
    var header := "data:" + mime + ";name=" + n + ";base64";
    var p := |"data:" + mime|;
    assert header[p] == ';';
    forall i | 0 <= i < p + 1 ensures !NameAt(header, i) {
      if i + 5 <= |header| {
        if i + 4 < p {
          assert header[i..i + 5][4] == header[i + 4];
          assert header[i + 4] == ("data:" + mime)[i + 4];
        } else {
          assert header[i..i + 5][p - i] == ';';
        }
      }
    }
    NameMatchSkip(header, 0, p + 1);
    assert header[p + 1..p + 6] == "name=";
    assert header[p + 6..p + 6 + |n|] == n;
    assert header[p + 6 + |n|] == ';';
    ValueEndAfterName(header, p + 6, n);
  }

  /** The header of a data URI without a name parameter names no file. */
  lemma UnnamedHeader(mime: string)
    requires WellFormedMime(mime)
    ensures NameMatch("data:" + mime + ";base64", 0) == None
  {
    NoEqualsNoName("data:" + mime + ";base64", 0);
  }

  /** A well-formed data URI contains "base64" and splits at its one comma. */
  lemma UriPieces(mime: string, name: Option<string>, payload: string)
    requires WellFormedMime(mime)
    requires name.Some? ==> WellFormedName(name.value)
    requires ',' !in payload
    ensures var header := "data:" + mime + (if name.Some? then ";name=" + name.value else "") + ";base64";
      Contains(DataUri(mime, name, payload), "base64") && Split(DataUri(mime, name, payload), ',') == [header, payload]
  {
    var nameSeg := if name.Some? then ";name=" + name.value else "";
    var header := "data:" + mime + nameSeg + ";base64";
    var uri := DataUri(mime, name, payload);
    assert uri == header + [','] + payload;
    var pre := "data:" + mime + nameSeg + ";";
    assert uri == pre + "base64" + ("," + payload);
    var at := |pre|;
    assert uri[at..at + 6] == "base64";
    ContainsAt(uri, "base64", at);
    assert ',' !in nameSeg;
    assert ',' !in header;
    SplitAfterPiece(header, payload, ',');
    SplitNoSeparator(payload, ',');
  }

  /** Reading a well-formed data URI gives back its payload, MIME type and file name. */
  lemma DataUriRoundTrip(mime: string, name: Option<string>, payload: string, now: nat)
    requires WellFormedMime(mime)
    requires name.Some? ==> WellFormedName(name.value)
    requires payload != "" && ',' !in payload
    ensures Base64ToFile(DataUri(mime, name, payload), now)
         == Some(UploadFile(payload, if name.Some? then name.value else DefaultName(mime, now), mime))
  {
    var header := "data:" + mime + (if name.Some? then ";name=" + name.value else "") + ";base64";
    UriPieces(mime, name, payload);
    HeaderParts(mime, name);
    assert Split(DataUri(mime, name, payload), ',') == [header, payload];
    assert MimeTypeOf(header) == mime;
    if name.Some? {
      assert header == "data:" + mime + ";name=" + name.value + ";base64";
      NamedHeader(mime, name.value);
      assert NameMatch(header, 0) == Some(name.value);
    } else {
      assert header == "data:" + mime + ";base64";
      UnnamedHeader(mime);
      assert NameMatch(header, 0) == None;
    }
  }

  // ---------------------------------------------------------------------------
  // Keys, URLs and the batch upload
  // ---------------------------------------------------------------------------

  /** `<folder>/<now>-<originalname>`. */
  function UploadKey(folder: string, now: nat, originalName: string): string {
    folder + "/" + NatToString(now) + "-" + originalName
  }

  /** The URL `uploadFile` returns for a file stored under `folder`. */
  function UploadedUrl(bucket: string, folder: string, now: nat, file: UploadFile): string {
    FileUrl(bucket, UploadKey(folder, now, file.originalName))
  }

  /** Deleting by the URL of an upload targets exactly the key it was stored under. */
  lemma UploadedKeyRecovered(bucket: string, folder: string, now: nat, file: UploadFile)
    requires '/' !in bucket
    ensures ExtractKeyFromUrl(UploadedUrl(bucket, folder, now, file)) == UploadKey(folder, now, file.originalName)
    ensures StartsWith(ExtractKeyFromUrl(UploadedUrl(bucket, folder, now, file)), folder + "/")
  {
    KeyRoundTrip(bucket, UploadKey(folder, now, file.originalName));
    var key := UploadKey(folder, now, file.originalName);
    assert key[..|folder + "/"|] == folder + "/";
  }

  /** Every URI converts and every upload is accepted by the store. */
  predicate AllUploaded(uris: seq<string>, folder: string, now: nat, stored: string -> bool) {
    forall i :: 0 <= i < |uris| ==>
      Base64ToFile(uris[i], now).Some? && stored(UploadKey(folder, now, Base64ToFile(uris[i], now).value.originalName))
  }

  /**
   * `uploadFiles`: null when any URI fails to convert or any upload is refused
   * (`stored` is the store's verdict on a key); otherwise one URL per URI, in order.
   * One clock reading `now` stands for every `Date.now()` of the call: the code
   * reads the clock afresh in each `base64ToFile` and each `uploadFile`, so its
   * keys and default names may carry different times.
   */
  function UploadFiles(bucket: string, uris: seq<string>, folder: string, now: nat, stored: string -> bool): (r: Option<seq<string>>)
    ensures r.Some? <==> AllUploaded(uris, folder, now, stored)
    ensures r.Some? ==> |r.value| == |uris|
    ensures r.Some? ==> forall i :: 0 <= i < |uris| ==>
      r.value[i] == UploadedUrl(bucket, folder, now, Base64ToFile(uris[i], now).value)
    decreases |uris|
  {
    if uris == [] then Some([])
    else
      var file := Base64ToFile(uris[0], now);
      var rest := UploadFiles(bucket, uris[1..], folder, now, stored);
      assert AllUploaded(uris, folder, now, stored) <==>
        (file.Some? && stored(UploadKey(folder, now, file.value.originalName)) && AllUploaded(uris[1..], folder, now, stored)) by {
        assert forall i :: 1 <= i < |uris| ==> uris[i] == uris[1..][i - 1];
      }
      if file.None? || !stored(UploadKey(folder, now, file.value.originalName)) || rest.None? then None
      else Some([UploadedUrl(bucket, folder, now, file.value)] + rest.value)
  }
}
