/** The domain allow-list matcher, and its reading as suffix matching on labels. */
module DomainAllowList {
  import opened Basics

  /** The library functions the matcher relies on: per-character lower-casing and
      `url.Parse(s).Hostname()`, `None` when parsing fails. */
  datatype Library = Library(lower: char -> char, hostname: string -> Option<string>)

  /** Go's `unicode.IsSpace`. */
  predicate IsSpace(c: char) {
    || '\U{0009}' <= c <= '\U{000D}' || c == ' ' || c == '\U{0085}' || c == '\U{00A0}' || c == '\U{1680}'
    || '\U{2000}' <= c <= '\U{200A}' || c == '\U{2028}' || c == '\U{2029}' || c == '\U{202F}'
    || c == '\U{205F}' || c == '\U{3000}'
  }

  function TrimLeft(s: string): (r: string)
    ensures |r| <= |s|
  {
    if s != "" && IsSpace(s[0]) then TrimLeft(s[1..]) else s
  }

  function TrimRight(s: string): (r: string)
    ensures |r| <= |s|
  {
    if s != "" && IsSpace(s[|s| - 1]) then TrimRight(s[..|s| - 1]) else s
  }

  function TrimSpace(s: string): string {
    TrimRight(TrimLeft(s))
  }

  function Lower(l: Library, s: string): (r: string)
    ensures |r| == |s| && forall i :: 0 <= i < |s| ==> r[i] == l.lower(s[i])
  {
    seq(|s|, i requires 0 <= i < |s| => l.lower(s[i]))
  }

  predicate HasSuffix(s: string, suffix: string) {
    |suffix| <= |s| && s[|s| - |suffix|..] == suffix
  }

  // ----- hasScheme -----

  predicate Letter(c: char) {
    'a' <= c <= 'z' || 'A' <= c <= 'Z'
  }

  predicate MarkAt(s: string, i: int) {
    0 <= i <= |s| && "://" <= s[i..]
  }

  /** One or more letters, then "://". Letters cannot hide an earlier mark, so
      looking at the first one is enough. */
  predicate Scheme(s: string) {
    exists i :: 1 <= i <= |s| && MarkAt(s, i) && forall j :: 0 <= j < i ==> Letter(s[j])
  }

  /** The texts with a scheme are exactly those of this form. */
  lemma SchemeText(s: string) returns (letters: string, rest: string)
    ensures Scheme(s) ==> s == letters + "://" + rest && letters != ""
    ensures Scheme(s) ==> forall j :: 0 <= j < |letters| ==> 'a' <= letters[j] <= 'z' || 'A' <= letters[j] <= 'Z'
  {
    letters, rest := "", "";
    if Scheme(s) {
      var i :| 1 <= i <= |s| && MarkAt(s, i) && forall j :: 0 <= j < i ==> Letter(s[j]);
      letters, rest := s[..i], s[i + 3..];
      assert s[i..] == "://" + rest;
    }
  }

  lemma TextWithScheme(letters: string, rest: string)
    requires letters != ""
    requires forall j :: 0 <= j < |letters| ==> 'a' <= letters[j] <= 'z' || 'A' <= letters[j] <= 'Z'
    ensures Scheme(letters + "://" + rest)
  {
    var s := letters + "://" + rest;
    assert s[|letters|..] == "://" + rest;
    assert MarkAt(s, |letters|);
  }

  method HasScheme(s: string) returns (r: bool)
    ensures r <==> Scheme(s)
  {
    var i := 0;
    while i < |s| && !MarkAt(s, i)
      invariant 0 <= i <= |s|
      invariant forall k :: 0 <= k < i ==> !MarkAt(s, k)
    {
      i := i + 1;
    }
    if i == 0 || i == |s| {
      assert i == 0 && |s| > 0 ==> s[0..][0] == ':';
      return false;
    }
    for j := 0 to i
      invariant forall k :: 0 <= k < j ==> Letter(s[k])
    {
      if !Letter(s[j]) {
        forall k | 1 <= k && MarkAt(s, k)
          ensures k >= i
        {
        }
        return false;
      }
    }
    assert MarkAt(s, i);
    r := true;
  }

  // ----- Matching one entry -----

  /** The entry after trimming, taking the host of a URL, and lower-casing. */
  function Normalised(l: Library, raw: string): string {
    var a := TrimSpace(raw);
    var b := if Scheme(a) && l.hostname(a).Some? then l.hostname(a).value else a;
    Lower(l, b)
  }

  /** The apex itself, or anything ending with a dot and the apex. */
  predicate Under(d: string, apex: string) {
    d == apex || HasSuffix(d, "." + apex)
  }

  /** What a normalised entry accepts. */
  predicate EntryAccepts(d: string, a: string) {
    if "*." <= a then Under(d, a[2..])
    else if "." <= a then Under(d, a[1..])
    else d == a
  }

  predicate Accepts(l: Library, d: string, raw: string) {
    TrimSpace(raw) != "" && EntryAccepts(d, Normalised(l, raw))
  }

  /** Some entry of the list accepts the domain. */
  predicate Allowed(l: Library, domain: string, allowed: seq<string>) {
    domain != "" && exists i :: 0 <= i < |allowed| && Accepts(l, Lower(l, TrimSpace(domain)), allowed[i])
  }

  method IsDomainAllowed(l: Library, domain: string, allowed: seq<string>) returns (r: bool)
    ensures r <==> Allowed(l, domain, allowed)
  {
    if domain == "" || |allowed| == 0 {
      return false;
    }
    var d := Lower(l, TrimSpace(domain));
    for i := 0 to |allowed|
      invariant forall j :: 0 <= j < i ==> !Accepts(l, d, allowed[j])
    {
      var a := TrimSpace(allowed[i]);
      if a == "" {
        continue;
      }
      var scheme := HasScheme(a);
      if scheme {
        var host := l.hostname(a);
        if host.Some? {
          a := host.value;
        }
      }
      a := Lower(l, a);
      assert a == Normalised(l, allowed[i]);
      if "*." <= a {
        var suffix := a[2..];
        if d == suffix || HasSuffix(d, "." + suffix) {
          return true;
        }
        continue;
      }
      if "." <= a {
        var suffix := a[1..];
        if d == suffix || HasSuffix(d, "." + suffix) {
          return true;
        }
        continue;
      }
      if d == a {
        return true;
      }
    }
    r := false;
  }

  // ----- Spaces and letter case -----

  predicate AllSpace(s: string) {
    forall i :: 0 <= i < |s| ==> IsSpace(s[i])
  }

  predicate NoOuterSpace(s: string) {
    s == "" || (!IsSpace(s[0]) && !IsSpace(s[|s| - 1]))
  }

  lemma {:induction false} TrimLeftSplits(s: string) returns (front: string)
    ensures s == front + TrimLeft(s) && AllSpace(front)
    ensures TrimLeft(s) == "" || !IsSpace(TrimLeft(s)[0])
  {
    if s != "" && IsSpace(s[0]) {
      var rest := TrimLeftSplits(s[1..]);
      front := [s[0]] + rest;
      assert s == [s[0]] + s[1..];
    } else {
      front := "";
    }
  }

  lemma {:induction false} TrimRightSplits(s: string) returns (back: string)
    ensures s == TrimRight(s) + back && AllSpace(back)
    ensures TrimRight(s) == "" || !IsSpace(TrimRight(s)[|TrimRight(s)| - 1])
    decreases |s|
  {
    if s != "" && IsSpace(s[|s| - 1]) {
      var rest := TrimRightSplits(s[..|s| - 1]);
      back := rest + [s[|s| - 1]];
      assert s == s[..|s| - 1] + [s[|s| - 1]];
    } else {
      back := "";
    }
  }

  /** Trimming takes off exactly the outer spaces. */
  lemma TrimSplits(s: string) returns (front: string, back: string)
    ensures s == front + TrimSpace(s) + back && AllSpace(front) && AllSpace(back) && NoOuterSpace(TrimSpace(s))
  {
    front := TrimLeftSplits(s);
    back := TrimRightSplits(TrimLeft(s));
    assert TrimSpace(s) != "" ==> TrimSpace(s)[0] == TrimLeft(s)[0];
  }

  lemma {:induction false} TrimLeftOfSpaces(front: string, s: string)
    requires AllSpace(front)
    ensures TrimLeft(front + s) == TrimLeft(s)
  {
    if front == "" {
      assert front + s == s;
    } else {
      assert (front + s)[1..] == front[1..] + s;
      TrimLeftOfSpaces(front[1..], s);
    }
  }

  lemma {:induction false} TrimRightOfSpaces(s: string, back: string)
    requires AllSpace(back)
    ensures TrimRight(s + back) == TrimRight(s)
    decreases |back|
  {
    if back == "" {
      assert s + back == s;
    } else {
      var n := |back| - 1;
      assert (s + back)[..|s + back| - 1] == s + back[..n];
      TrimRightOfSpaces(s, back[..n]);
    }
  }

  /** Spaces around a text do not show after trimming. */
  lemma TrimOfPadded(front: string, s: string, back: string)
    requires AllSpace(front) && AllSpace(back)
    ensures TrimSpace(front + s + back) == TrimSpace(s)
  {
    assert front + s + back == front + (s + back);
    TrimLeftOfSpaces(front, s + back);
    var pad := TrimLeftSplits(s);
    var rest := TrimLeft(s);
    assert s + back == pad + (rest + back);
    TrimLeftOfSpaces(pad, rest + back);
    if rest == "" {
      assert rest + back == back;
      TrimLeftOfSpaces(back, "");
      assert back + "" == back;
    } else {
      assert (rest + back)[0] == rest[0];
      TrimRightOfSpaces(rest, back);
    }
  }

  lemma TrimOfTight(s: string)
    requires NoOuterSpace(s)
    ensures TrimSpace(s) == s
  {
  }

  /** Spaces around a domain do not matter, unless there is nothing else. */
  lemma SpacesDoNotMatter(l: Library, front: string, domain: string, back: string, allowed: seq<string>)
    requires AllSpace(front) && AllSpace(back) && domain != ""
    ensures Allowed(l, front + domain + back, allowed) <==> Allowed(l, domain, allowed)
  {
    TrimOfPadded(front, domain, back);
  }

  /** A domain of spaces only is let through exactly by an entry that comes down to
      nothing: a bare `.` or `*.`, or a URL without a host. */
  lemma BlankDomain(l: Library, domain: string, allowed: seq<string>)
    requires domain != "" && AllSpace(domain)
    ensures Allowed(l, domain, allowed) <==>
            exists i :: && 0 <= i < |allowed| && TrimSpace(allowed[i]) != ""
                        && Normalised(l, allowed[i]) in {"", ".", "*."}
  {
    TrimOfPadded(domain, "", "");
    assert domain + "" + "" == domain && TrimSpace("") == "" && Lower(l, "") == "";
    forall i | 0 <= i < |allowed|
      ensures Accepts(l, "", allowed[i]) <==>
              TrimSpace(allowed[i]) != "" && Normalised(l, allowed[i]) in {"", ".", "*."}
    {
      var a := Normalised(l, allowed[i]);
      assert "*." <= a && a[2..] == "" ==> a == "*.";
      assert "." <= a && a[1..] == "" ==> a == ".";
    }
  }

  lemma {:induction false} LowerTrimLeft(l: Library, s: string)
    requires forall c :: IsSpace(l.lower(c)) <==> IsSpace(c)
    ensures Lower(l, TrimLeft(s)) == TrimLeft(Lower(l, s))
  {
    if s != "" && IsSpace(s[0]) {
      assert Lower(l, s)[1..] == Lower(l, s[1..]);
      LowerTrimLeft(l, s[1..]);
    }
  }

  lemma {:induction false} LowerTrimRight(l: Library, s: string)
    requires forall c :: IsSpace(l.lower(c)) <==> IsSpace(c)
    ensures Lower(l, TrimRight(s)) == TrimRight(Lower(l, s))
    decreases |s|
  {
    if s != "" && IsSpace(s[|s| - 1]) {
      assert Lower(l, s)[..|s| - 1] == Lower(l, s[..|s| - 1]);
      LowerTrimRight(l, s[..|s| - 1]);
    }
  }

  /** Letter case of the domain does not matter: domains that are equal in lower case
      are allowed by the same lists. */
  lemma CaseDoesNotMatter(l: Library, one: string, other: string, allowed: seq<string>)
    requires forall c :: IsSpace(l.lower(c)) <==> IsSpace(c)
    requires Lower(l, one) == Lower(l, other)
    ensures Allowed(l, one, allowed) <==> Allowed(l, other, allowed)
  {
    LowerTrimLeft(l, one);
    LowerTrimRight(l, TrimLeft(one));
    LowerTrimLeft(l, other);
    LowerTrimRight(l, TrimLeft(other));
    assert |one| == |other|;
  }

  // ----- What an entry stands for -----

  /** Everything whose labels end with those of a marked text; otherwise the text. */
  predicate Covers(a: string, d: string) {
    if "*." <= a then EndsWith(Labels(d), Labels(a[2..]))
    else if "." <= a then EndsWith(Labels(d), Labels(a[1..]))
    else d == a
  }

  /** A URL entry, spaces around it or not, stands for its host in lower case; one that
      cannot be parsed stands for its own text. */
  lemma UrlEntry(l: Library, d: string, front: string, url: string, back: string)
    requires AllSpace(front) && AllSpace(back) && NoOuterSpace(url) && Scheme(url)
    ensures l.hostname(url).Some? ==>
              (Accepts(l, d, front + url + back) <==> Covers(Lower(l, l.hostname(url).value), d))
    ensures l.hostname(url).None? ==> (Accepts(l, d, front + url + back) <==> Covers(Lower(l, url), d))
  {
    TrimOfPadded(front, url, back);
    TrimOfTight(url);
    AcceptsByLabels(l, d, front + url + back);
  }

  /** Any other entry stands for its own text in lower case. */
  lemma PlainEntry(l: Library, d: string, front: string, entry: string, back: string)
    requires AllSpace(front) && AllSpace(back) && NoOuterSpace(entry) && entry != "" && !Scheme(entry)
    ensures Accepts(l, d, front + entry + back) <==> Covers(Lower(l, entry), d)
  {
    TrimOfPadded(front, entry, back);
    TrimOfTight(entry);
    AcceptsByLabels(l, d, front + entry + back);
  }

  /** Neither the empty domain nor the empty list allows anything. */
  lemma NothingAllowed(l: Library, domain: string, allowed: seq<string>)
    ensures !Allowed(l, "", allowed) && !Allowed(l, domain, [])
  {
  }

  /** Blank entries accept nothing. */
  lemma BlankEntry(l: Library, d: string, entry: string)
    requires AllSpace(entry)
    ensures !Accepts(l, d, entry)
  {
    TrimOfPadded(entry, "", "");
    assert entry + "" + "" == entry;
  }

  // ----- Labels -----

  /** The dot-separated labels; the empty string has one, empty, label. */
  function Labels(s: string): (r: seq<string>)
    ensures r != []
  {
    if s == "" then [""] else AddChar(s[0], Labels(s[1..]))
  }

  function AddChar(c: char, labels: seq<string>): (r: seq<string>)
    requires labels != []
    ensures r != []
  {
    if c == '.' then [""] + labels else [[c] + labels[0]] + labels[1..]
  }

  lemma AddCharInFront(c: char, p: seq<string>, q: seq<string>)
    requires p != []
    ensures AddChar(c, p + q) == AddChar(c, p) + q
  {
    assert (p + q)[1..] == p[1..] + q;
  }

  function Dotted(labels: seq<string>): string
    requires labels != []
  {
    if |labels| == 1 then labels[0] else labels[0] + "." + Dotted(labels[1..])
  }

  predicate EndsWith(labels: seq<string>, tail: seq<string>) {
    |tail| <= |labels| && labels[|labels| - |tail|..] == tail
  }

  lemma {:induction false} LabelsOfDotted(a: string, b: string)
    ensures Labels(a + ("." + b)) == Labels(a) + Labels(b)
  {
    var s := a + ("." + b);
    if a == "" {
      assert s[0] == '.' && s[1..] == b;
    } else {
      LabelsOfDotted(a[1..], b);
      assert s[0] == a[0] && s[1..] == a[1..] + ("." + b);
      AddCharInFront(a[0], Labels(a[1..]), Labels(b));
    }
  }

  /** Round trip: the labels of a domain determine it. */
  lemma {:induction false} DottedLabels(s: string)
    ensures Dotted(Labels(s)) == s
  {
    if s != "" {
      DottedLabels(s[1..]);
      var rest := Labels(s[1..]);
      assert Labels(s)[1..] == if s[0] == '.' then rest else rest[1..];
    }
  }

  lemma {:induction false} DottedOfConcat(p: seq<string>, q: seq<string>)
    requires p != [] && q != []
    ensures Dotted(p + q) == Dotted(p) + ("." + Dotted(q))
    decreases |p|
  {
    if |p| == 1 {
      assert (p + q)[1..] == q;
    } else {
      assert (p + q)[1..] == p[1..] + q;
      DottedOfConcat(p[1..], q);
    }
  }

  /** Lying under an apex, by text, is ending with its labels. */
  lemma UnderIsLabelSuffix(d: string, apex: string)
    ensures Under(d, apex) <==> EndsWith(Labels(d), Labels(apex))
  {
    var labels, tail := Labels(d), Labels(apex);
    if HasSuffix(d, "." + apex) {
      var front := d[..|d| - |apex| - 1];
      assert d == front + ("." + apex);
      LabelsOfDotted(front, apex);
      assert labels[|Labels(front)|..] == tail;
    }
    if EndsWith(labels, tail) {
      DottedLabels(d);
      DottedLabels(apex);
      var front := labels[..|labels| - |tail|];
      assert labels == front + tail;
      if front == [] {
        assert labels == tail;
      } else {
        DottedOfConcat(front, tail);
        assert d[|Dotted(front)|..] == "." + apex;
      }
    }
  }

  /** The declarative reading of an entry: a wildcard or leading-dot entry accepts
      exactly the domains whose labels end with its own, any other entry itself. */
  lemma AcceptsByLabels(l: Library, d: string, raw: string)
    requires TrimSpace(raw) != ""
    ensures var a := Normalised(l, raw);
            Accepts(l, d, raw) <==>
            if "*." <= a then EndsWith(Labels(d), Labels(a[2..]))
            else if "." <= a then EndsWith(Labels(d), Labels(a[1..]))
            else d == a
  {
    var a := Normalised(l, raw);
    if "*." <= a {
      UnderIsLabelSuffix(d, a[2..]);
    } else if "." <= a {
      UnderIsLabelSuffix(d, a[1..]);
    }
  }

  lemma {:induction false} TrimRightKeepsPrefix(p: string, s: string)
    requires p != "" && !IsSpace(p[|p| - 1])
    ensures TrimRight(p + s) == p + TrimRight(s)
    decreases |s|
  {
    if s == "" {
      assert p + s == p;
    } else {
      var n := |s| - 1;
      assert (p + s)[..|p + s| - 1] == p + s[..n];
      TrimRightKeepsPrefix(p, s[..n]);
    }
  }

  lemma NormalisedMarked(l: Library, p: string, s: string)
    requires l.lower('.') == '.' && l.lower('*') == '*'
    requires p == "*." || p == "."
    ensures TrimSpace(p + s) != "" && Normalised(l, p + s) == p + Lower(l, TrimRight(s))
  {
    TrimMarked(p, s);
    LowerMarked(l, p, TrimRight(s));
    assert !Letter((p + TrimRight(s))[0]);
  }

  lemma TrimMarked(p: string, s: string)
    requires p == "*." || p == "."
    ensures TrimSpace(p + s) == p + TrimRight(s)
  {
    assert (p + s)[0] == p[0];
    assert TrimLeft(p + s) == p + s;
    TrimRightKeepsPrefix(p, s);
  }

  lemma LowerMarked(l: Library, p: string, s: string)
    requires l.lower('.') == '.' && l.lower('*') == '*'
    requires p == "*." || p == "."
    ensures Lower(l, p + s) == p + Lower(l, s)
  {
  }

  /** `*.s` and `.s` accept the same domains. */
  lemma WildcardIsLeadingDot(l: Library, d: string, s: string)
    requires l.lower('.') == '.' && l.lower('*') == '*'
    ensures Accepts(l, d, "*." + s) <==> Accepts(l, d, "." + s)
  {
    NormalisedMarked(l, "*.", s);
    NormalisedMarked(l, ".", s);
    var rest := Lower(l, TrimRight(s));
    assert ("*." + rest)[2..] == rest && ("." + rest)[1..] == rest;
  }

  /** Only which entries occur counts: more entries allow more domains. */
  lemma AllowedIsMonotone(l: Library, domain: string, fewer: seq<string>, more: seq<string>)
    requires forall a :: a in fewer ==> a in more
    ensures Allowed(l, domain, fewer) ==> Allowed(l, domain, more)
  {
    if Allowed(l, domain, fewer) {
      var i :| 0 <= i < |fewer| && Accepts(l, Lower(l, TrimSpace(domain)), fewer[i]);
      assert fewer[i] in more;
      var j :| 0 <= j < |more| && more[j] == fewer[i];
    }
  }

  lemma AllowedIgnoresOrder(l: Library, domain: string, one: seq<string>, other: seq<string>)
    requires multiset(one) == multiset(other)
    ensures Allowed(l, domain, one) <==> Allowed(l, domain, other)
  {
    assert forall a :: a in one <==> a in multiset(one);
    assert forall a :: a in other <==> a in multiset(other);
    AllowedIsMonotone(l, domain, one, other);
    AllowedIsMonotone(l, domain, other, one);
  }
}
