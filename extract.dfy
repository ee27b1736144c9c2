/** The extractors that lead_generator.py and demo.py share word for word:
    title cleaning, the meta description, the e-mail filter that walks a set,
    and the phone scan with its early stop. */
module Extract {
  import opened Seqs
  import opened Text
  import opened Page

  /** The substrings that disqualify an address, checked on its lower-cased form. */
  const EmailDenyList: seq<string> := ["example", "test", "sample", "noreply", "support"]

  /** `validate_email` accepts the address and no deny-listed word occurs in it. */
  predicate Accepted(valid: string -> bool, e: string)
  {
    valid(e) && !ContainsAny(Lower(e), EmailDenyList)
  }

  /** The candidates that `_filter_emails` keeps, in input order, before the cap. */
  function AcceptedEmails(emails: seq<string>, valid: string -> bool): seq<string>
  {
    Filter(emails, (e: string) => Accepted(valid, e))
  }

  /** What `list(set(xs))[:n]` may give when the set's iteration order is
      unknown: at most `n` distinct elements of `xs`, and every element of `xs`
      when fewer than `n` were taken. */
  predicate DistinctPick(xs: seq<string>, n: nat, r: seq<string>)
  {
    && |r| <= n
    && Distinct(r)
    && (forall x :: x in r ==> x in xs)
    && (|r| < n ==> forall x :: x in xs ==> x in r)
  }

  /** `list(set(xs))[:n]`: the set is walked in an order the model leaves open. */
  method PickDistinct(xs: seq<string>, n: nat) returns (r: seq<string>)
    ensures DistinctPick(xs, n, r)
  {
    r := [];
    var pool := set x | x in xs;
    while pool != {} && |r| < n
      invariant forall x :: x in pool ==> x in xs
      invariant Distinct(r) && |r| <= n
      invariant forall x :: x in r ==> x in xs && x !in pool
      invariant forall x :: x in xs ==> x in pool || x in r
      decreases pool
    {
      var x :| x in pool;
      r := r + [x];
      pool := pool - {x};
    }
  }

  /** `_filter_emails` of lead_generator.py and demo.py: walk `set(emails)`,
      keep what the validator accepts and the deny list lets through, stop at
      three. */
  method FilterEmails(emails: seq<string>, valid: string -> bool) returns (r: seq<string>)
    ensures DistinctPick(AcceptedEmails(emails, valid), 3, r)
  {
    r := [];
    var pool := set e | e in emails;
    while pool != {}
      invariant forall e :: e in pool ==> e in emails
      invariant Distinct(r) && |r| < 3
      invariant forall e :: e in r ==> e in emails && Accepted(valid, e) && e !in pool
      invariant forall e :: e in emails && Accepted(valid, e) ==> e in pool || e in r
      decreases pool
    {
      var e :| e in pool;
      pool := pool - {e};
      if Accepted(valid, e) {
        r := r + [e];
        if |r| >= 3 {
          break;
        }
      }
    }
    forall x
      ensures x in AcceptedEmails(emails, valid) <==> x in emails && Accepted(valid, x)
    {
      FilterMembership(emails, (e: string) => Accepted(valid, e), x);
    }
  }

  /** Whatever `_filter_emails` picks is an input address that the validator
      accepts and that holds none of the deny-listed words in any case; with
      fewer than three picked, every such address was picked. */
  lemma FilteredEmailsAccepted(emails: seq<string>, valid: string -> bool, r: seq<string>)
    requires DistinctPick(AcceptedEmails(emails, valid), 3, r)
    ensures forall e :: e in r ==> e in emails && valid(e)
    ensures forall e, i :: e in r && 0 <= i < |EmailDenyList| ==> !Contains(Lower(e), EmailDenyList[i])
    ensures |r| < 3 ==> forall e :: e in emails && Accepted(valid, e) ==> e in r
  {
    forall e | e in r
      ensures e in emails && Accepted(valid, e)
    {
      FilterMembership(emails, (x: string) => Accepted(valid, x), e);
    }
    forall e | e in emails && Accepted(valid, e)
      ensures e in AcceptedEmails(emails, valid)
    {
      FilterMembership(emails, (x: string) => Accepted(valid, x), e);
    }
    forall e | e in r
      ensures forall i :: 0 <= i < |EmailDenyList| ==> !Contains(Lower(e), EmailDenyList[i])
    {
      ContainsAnyIff(Lower(e), EmailDenyList);
    }
  }

  /** The number of phone patterns `_extract_phones` consults when it has
      tried the first `k`: it stops after the first pattern at which the matches
      gathered so far number two or more, or after the last pattern. */
  function ConsultedFrom(m: seq<seq<string>>, k: nat): (r: nat)
    requires 1 <= k <= |m|
    ensures k <= r <= |m|
    ensures r < |m| ==> |Flatten(m[..r])| >= 2
    ensures forall j :: k <= j < r ==> |Flatten(m[..j])| < 2
    decreases |m| - k
  {
    if |Flatten(m[..k])| >= 2 || k == |m| then k else ConsultedFrom(m, k + 1)
  }

  /** The number of phone patterns consulted, given each pattern's matches:
      at least one when there is a pattern, every pattern before the last
      one consulted left fewer than two matches, and the scan stops early only
      once two or more are gathered. */
  function Consulted(m: seq<seq<string>>): (r: nat)
    ensures r <= |m|
    ensures m != [] ==> 1 <= r
    ensures r < |m| ==> |Flatten(m[..r])| >= 2
    ensures forall j :: 1 <= j < r ==> |Flatten(m[..j])| < 2
  {
    if m == [] then 0 else ConsultedFrom(m, 1)
  }

  /** `_extract_phones` (lead_generator.py) and `_extract_phones_basic`
      (demo.py): gather each pattern's matches in order, stop once two or more
      are gathered, and return at most two distinct ones. */
  method ExtractPhones(m: seq<seq<string>>) returns (r: seq<string>)
    ensures DistinctPick(Flatten(m[..Consulted(m)]), 2, r)
  {
    var phones: seq<string> := [];
    var i := 0;
    while i < |m|
      invariant i <= |m|
      invariant phones == Flatten(m[..i])
      invariant forall j :: 1 <= j <= i ==> |Flatten(m[..j])| < 2
    {
      FlattenAppend(m[..i], m[i]);
      assert m[..i + 1] == m[..i] + [m[i]];
      phones := phones + m[i];
      i := i + 1;
      if |phones| >= 2 {
        break;
      }
    }
    assert i == Consulted(m);
    r := PickDistinct(phones, 2);
  }

  /** Every phone `_extract_phones` returns is a match of a pattern it
      consulted, and at most two are returned. */
  lemma PhonesFromConsultedPatterns(m: seq<seq<string>>, r: seq<string>)
    requires DistinctPick(Flatten(m[..Consulted(m)]), 2, r)
    ensures |r| <= 2
    ensures forall x :: x in r ==> exists i :: 0 <= i < Consulted(m) && x in m[i]
  {
    var c := Consulted(m);
    forall x | x in r
      ensures exists i :: 0 <= i < c && x in m[i]
    {
      FlattenMembership(m[..c], x);
      var i :| 0 <= i < c && x in m[..c][i];
    }
  }

  /** `_clean_title`: the part before the first `|`, then before the first
      `-`, stripped and cut to 100 characters. */
  function CleanTitle(title: string): (r: string)
    ensures title == [] ==> r == []
    ensures |r| <= 100
    ensures '|' !in r && '-' !in r
    ensures r != [] ==> !IsSpace(r[0])
  {
    if title == [] then []
    else
      var head := SplitOn(SplitOn(title, '|')[0], '-')[0];
      StripKeepsOut(head, '|');
      StripKeepsOut(head, '-');
      Take(Strip(head), 100)
  }

  /** Stripping never brings in a character. */
  lemma StripKeepsOut(s: string, c: char)
    requires c !in s
    ensures c !in Strip(s)
  {
    var l := LStrip(s);
    assert forall i :: 0 <= i < |l| ==> l[i] == s[|s| - |l| + i];
    var r := RStrip(l);
    assert forall i :: 0 <= i < |r| ==> r[i] == l[i];
  }

  /** A title that is already clean comes back unchanged. */
  lemma CleanTitleKeepsCleanTitle(title: string)
    requires '|' !in title && '-' !in title && |title| <= 100
    requires title != [] ==> !IsSpace(title[0]) && !IsSpace(title[|title| - 1])
    ensures CleanTitle(title) == title
  {
    if title != [] {
      SplitWithoutSeparator(title, '|');
      SplitWithoutSeparator(title, '-');
    }
  }

  lemma {:induction false} SplitWithoutSeparator(s: string, c: char)
    requires c !in s
    ensures SplitOn(s, c) == [s]
  {
    if s != [] {
      assert s[0] != c && c !in s[1..];
      SplitWithoutSeparator(s[1..], c);
      assert [s[0]] + s[1..] == s;
    }
  }

  /** The title text `_extract_with_requests` hands to `_clean_title`:
      `soup.title.string`, or "" when the page has no title text. */
  function TitleText(t: Option<string>): string
  {
    match t
    case None => []
    case Some(s) => s
  }

  /** `_extract_meta_description`: the meta description, cut to 200
      characters, or the empty string. */
  function MetaDescription(content: Option<string>): (r: string)
    ensures |r| <= 200
    ensures content.None? ==> r == []
    ensures content.Some? ==> StartsWith(content.value, r)
    ensures content.Some? && |content.value| <= 200 ==> r == content.value
    ensures content.Some? && |content.value| > 200 ==> r == content.value[..200]
  {
    match content
    case None => []
    case Some(c) => if c == [] then [] else Take(c, 200)
  }
}
