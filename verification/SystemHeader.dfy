/** The textual part of a System contract: version, names, intent, compute class and storage prefix. */
module SystemHeader {
  import opened Text
  import Paths

  const API_VERSION: string := "canter.dev/v1alpha1"

  datatype Header = Header(apiVersion: string, kind: string, name: string, intent: string, computeClass: string,
                           prefix: string)

  /**
   The pattern of system and service names: a lower-case letter, then letters, digits and dashes,
   48 characters at most.
   */
  predicate SafeName(s: string) {
    && 1 <= |s| <= 48 && 'a' <= s[0] <= 'z'
    && forall i :: 1 <= i < |s| ==> 'a' <= s[i] <= 'z' || '0' <= s[i] <= '9' || s[i] == '-'
  }

  predicate Alphanumeric(c: char) {
    'A' <= c <= 'Z' || 'a' <= c <= 'z' || '0' <= c <= '9'
  }

  /** One segment of a storage prefix. */
  predicate SegmentOk(s: string) {
    && 1 <= |s| <= 128 && Alphanumeric(s[0])
    && forall i :: 1 <= i < |s| ==> Alphanumeric(s[i]) || s[i] in {'.', '_', '-'}
  }

  predicate PrefixOk(prefix: string) {
    |prefix| <= 512 && forall i :: 0 <= i < |Paths.Split(prefix)| ==> SegmentOk(Paths.Split(prefix)[i])
  }

  predicate HeaderOk(h: Header) {
    && h.apiVersion == API_VERSION && h.kind == "System" && SafeName(h.name)
    && (exists i :: 0 <= i < |h.intent| && !Space(h.intent[i]))
    && h.computeClass in {"c1", "c2", "c3"} && PrefixOk(h.prefix)
  }

  /** A slash at either end leaves an empty segment there. */
  lemma EdgeSlash(prefix: string)
    requires prefix == "" || prefix[0] == '/' || prefix[|prefix| - 1] == '/'
    ensures exists i :: 0 <= i < |Paths.Split(prefix)| && Paths.Split(prefix)[i] == ""
  {
    var segments := Paths.Split(prefix);
    if prefix == "" || prefix[0] == '/' {
      assert segments[0] == "";
    } else {
      var front := prefix[..|prefix| - 1];
      assert prefix == front + "/" + "";
      Paths.SplitAppend(front, "");
      assert segments[|segments| - 1] == "";
    }
  }

  /** ValidateM1Prefix. */
  method CheckPrefix(prefix: string) returns (ok: bool)
    ensures ok <==> PrefixOk(prefix)
  {
    if prefix == "" || |prefix| > 512 || prefix[0] == '/' || prefix[|prefix| - 1] == '/' {
      if |prefix| <= 512 { EdgeSlash(prefix); }
      return false;
    }
    var segments := Paths.Split(prefix);
    var i := 0;
    while i < |segments|
      invariant 0 <= i <= |segments| && forall k :: 0 <= k < i ==> SegmentOk(segments[k])
    {
      if !SegmentOk(segments[i]) || segments[i] == "." || segments[i] == ".." { return false; }
      i := i + 1;
    }
    ok := true;
  }

  method CheckHeader(h: Header) returns (ok: bool)
    ensures ok <==> HeaderOk(h)
  {
    if h.apiVersion != API_VERSION || h.kind != "System" { return false; }
    TrimEmpty(h.intent);
    if !SafeName(h.name) || Trim(h.intent) == "" { return false; }
    if h.computeClass != "c1" && h.computeClass != "c2" && h.computeClass != "c3" { return false; }
    ok := CheckPrefix(h.prefix);
  }
}
