// The runner's domain test: a host is in scope when it is an allowed domain or ends with "." and one.
module DomainScope {
  function Labels(s: string): (r: seq<string>)
    ensures r != []
  {
    if s == [] then [""]
    else
      var rest := Labels(s[1..]);
      if s[0] == '.' then [""] + rest else [[s[0]] + rest[0]] + rest[1..]
  }

  function Joined(labels: seq<string>): string
    requires labels != []
  {
    if |labels| == 1 then labels[0] else labels[0] + "." + Joined(labels[1..])
  }

  predicate EndsWith(s: string, suffix: string) { |suffix| <= |s| && s[|s| - |suffix|..] == suffix }

  predicate InDomain(host: string, d: string) { host == d || EndsWith(host, "." + d) }

  // The reference: the labels of the domain are the last labels of the host.
  predicate LabelsEndWith(host: seq<string>, d: seq<string>) { |d| <= |host| && host[|host| - |d|..] == d }

  lemma {:induction false} JoinedLabels(s: string)
    ensures Joined(Labels(s)) == s
  {
    if s != [] {
      JoinedLabels(s[1..]);
      var rest, labels := Labels(s[1..]), Labels(s);
      if s[0] == '.' {
        assert labels[1..] == rest;
        assert s == "" + "." + s[1..];
      } else {
        assert labels[1..] == rest[1..];
        assert s == [s[0]] + s[1..];
        if |rest| == 1 {
          assert |labels| == 1;
        } else {
          assert s[1..] == rest[0] + "." + Joined(rest[1..]);
        }
      }
    }
  }

  lemma {:induction false} LabelsOfDotted(x: string, d: string)
    ensures Labels(x + "." + d) == Labels(x) + Labels(d)
  {
    var s := x + "." + d;
    if x == [] {
      assert s == "." + d && s[1..] == d;
    } else {
      assert s[1..] == x[1..] + "." + d;
      LabelsOfDotted(x[1..], d);
    }
  }

  lemma {:induction false} JoinedConcat(a: seq<string>, b: seq<string>)
    requires a != [] && b != []
    ensures Joined(a + b) == Joined(a) + "." + Joined(b)
  {
    if |a| == 1 {
      assert (a + b)[1..] == b;
    } else {
      assert (a + b)[1..] == a[1..] + b;
      JoinedConcat(a[1..], b);
    }
  }

  lemma DottedEnds(x: string, d: string)
    ensures LabelsEndWith(Labels(x + "." + d), Labels(d)) && InDomain(x + "." + d, d)
  {
    LabelsOfDotted(x, d);
    var s, h, l := x + "." + d, Labels(x + "." + d), Labels(d);
    assert h[|h| - |l|..] == l;
    assert s == x + ("." + d);
    assert s[|x|..] == "." + d;
  }

  lemma LabelsEndMeansInDomain(host: string, d: string)
    requires LabelsEndWith(Labels(host), Labels(d))
    ensures InDomain(host, d)
  {
    var h, l := Labels(host), Labels(d);
    JoinedLabels(host);
    JoinedLabels(d);
    var front := h[..|h| - |l|];
    assert h == front + l;
    if front != [] {
      JoinedConcat(front, l);
      DottedEnds(Joined(front), d);
    }
  }

  lemma InDomainMeansLabelsEnd(host: string, d: string)
    requires InDomain(host, d)
    ensures LabelsEndWith(Labels(host), Labels(d))
  {
    if host != d {
      var x := host[..|host| - |"." + d|];
      assert host == x + ("." + d);
      assert host == x + "." + d;
      DottedEnds(x, d);
    }
  }

  // For all strings, the textual test holds exactly when the domain's labels end the host's.
  lemma InDomainIffLabels(host: string, d: string)
    ensures InDomain(host, d) <==> LabelsEndWith(Labels(host), Labels(d))
  {
    if InDomain(host, d) { InDomainMeansLabelsEnd(host, d); }
    if LabelsEndWith(Labels(host), Labels(d)) { LabelsEndMeansInDomain(host, d); }
  }

  // So a host inside a subdomain of an allowed domain is inside the allowed domain.
  lemma ScopeIsTransitive(host: string, sub: string, d: string)
    requires InDomain(host, sub) && InDomain(sub, d)
    ensures InDomain(host, d)
  {
    InDomainIffLabels(host, sub);
    InDomainIffLabels(sub, d);
    InDomainIffLabels(host, d);
    var h, s, l := Labels(host), Labels(sub), Labels(d);
    assert h[|h| - |l|..] == h[|h| - |s|..][|s| - |l|..];
  }

  // verify_link_scope on a parsed link: https, and the host in one of the allowed domains.
  method VerifyLinkScope(scheme: string, host: string, allowed: seq<string>) returns (ok: bool)
    ensures ok <==>
      scheme == "https" && exists i :: 0 <= i < |allowed| && LabelsEndWith(Labels(host), Labels(allowed[i]))
  {
    ok := false;
    if scheme != "https" { return; }
    var i := 0;
    while i < |allowed| && !ok
      invariant i <= |allowed|
      invariant ok <==> exists k :: 0 <= k < i && LabelsEndWith(Labels(host), Labels(allowed[k]))
    {
      InDomainIffLabels(host, allowed[i]);
      ok := InDomain(host, allowed[i]);
      i := i + 1;
    }
  }
}
