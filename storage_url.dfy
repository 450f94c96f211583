/**
 * Object-storage URLs: the public URL of a stored object and the inverse used
 * before deleting one (`extractKeyFromUrl`, which the help-point, marker, chat
 * and user services each define identically).
 */
module StorageUrl {
  import opened Common

  /** `https://<bucket>.s3.amazonaws.com/<key>`. */
  function FileUrl(bucket: string, key: string): string {
    "https://" + bucket + ".s3.amazonaws.com/" + key
  }

  /** `url.split('/').slice(3).join('/')`: everything after the third '/'. */
  function ExtractKeyFromUrl(url: string): string {
    var parts := Split(url, '/');
    Join(if |parts| <= 3 then [] else parts[3..], '/')
  }

  /** The key of any object URL is recovered, provided the bucket name has no '/'. */
  lemma KeyRoundTrip(bucket: string, key: string)
    requires '/' !in bucket
    ensures ExtractKeyFromUrl(FileUrl(bucket, key)) == key
  {
    var host := bucket + ".s3.amazonaws.com";
    assert '/' !in host by {
      assert forall i :: 0 <= i < |host| ==> host[i] != '/' by {
        forall i | 0 <= i < |host| ensures host[i] != '/' {
          if i < |bucket| { assert host[i] == bucket[i]; }
        }
      }
    }
    var url := FileUrl(bucket, key);
    assert url == "https:" + ['/'] + ("" + ['/'] + (host + ['/'] + key));
    SplitAfterPiece("https:", "" + ['/'] + (host + ['/'] + key), '/');
    SplitAfterPiece("", host + ['/'] + key, '/');
    SplitAfterPiece(host, key, '/');
    var parts := Split(url, '/');
    assert parts == ["https:"] + ([""] + ([host] + Split(key, '/')));
    assert parts[3..] == Split(key, '/');
    JoinSplit(key, '/');
  }

  /** A string without any '/' splits into one piece, so it has no key: the result is empty. */
  lemma ShortUrlHasNoKey(url: string)
    requires '/' !in url
    ensures ExtractKeyFromUrl(url) == ""
  {
    SplitNoSeparator(url, '/');
  }
}
