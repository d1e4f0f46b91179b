/** Account roles: the printer of their ARNs and the parser that recovers their prefix. */
module AccountRoles {
  import opened GoValues

  /** Index of the first occurrence of a character, or the length. */
  function IndexOf(s: string, c: char): (r: nat)
    ensures r <= |s| && (r < |s| ==> s[r] == c) && c !in s[..r]
  {
    if s == [] then 0 else if s[0] == c then 0 else 1 + IndexOf(s[1..], c)
  }

  /** strings.Split for a separator of one character. */
  function Split(s: string, c: char): (r: seq<string>)
    ensures |r| >= 1 && r[0] == s[..IndexOf(s, c)]
    ensures |r| == 1 <==> c !in s
    decreases |s|
  {
    var i := IndexOf(s, c);
    if i == |s| then [s] else [s[..i]] + Split(s[i + 1..], c)
  }

  function RoleARN(account: string, prefix: string, roleType: string): string {
    "arn:aws:iam::" + account + ":role/" + prefix + "-" + roleType + "-Role"
  }

  const INSTALLER := "Installer"

  /** getAccountRolesPrefix; None stands for the panic on an ARN without a slash. */
  function ParsePrefix(arn: string): Option<string> {
    var parts := Split(arn, '/');
    if |parts| < 2 then None else Some(Split(parts[1], '-')[0])
  }

  /** The longest initial segment free of '-' and '/'. */
  function Stem(prefix: string): (r: string)
    ensures r <= prefix && '-' !in r && '/' !in r
    ensures |r| < |prefix| ==> prefix[|r|] == '-' || prefix[|r|] == '/'
  {
    if prefix == "" || prefix[0] == '-' || prefix[0] == '/' then ""
    else [prefix[0]] + Stem(prefix[1..])
  }

  lemma IndexIs(s: string, c: char, i: nat)
    requires i <= |s| && c !in s[..i] && (i < |s| ==> s[i] == c)
    ensures IndexOf(s, c) == i
  {
    var j := IndexOf(s, c);
    assert forall k :: 0 <= k < i ==> s[k] in s[..i];
    assert forall k :: 0 <= k < j ==> s[k] in s[..j];
  }

  lemma SplitAfter(a: string, b: string, c: char)
    requires c !in a
    ensures Split(a + [c] + b, c) == [a] + Split(b, c)
  {
    var s := a + [c] + b;
    assert s[..|a|] == a && s[|a| + 1..] == b;
    IndexIs(s, c, |a|);
  }

  /** What is left of a text before its first slash, and of that before its first dash. */
  lemma StemParsed(prefix: string, rest: string)
    ensures Split(Split(prefix + "-" + rest, '/')[0], '-')[0] == Stem(prefix)
  {
    var s, stem := prefix + "-" + rest, Stem(prefix);
    assert s[..|stem|] == stem && (s[|stem|] == '-' || s[|stem|] == '/');
    var first := s[..IndexOf(s, '/')];
    if s[|stem|] == '/' {
      IndexIs(s, '/', |stem|);
      assert first == stem;
      IndexIs(first, '-', |stem|);
    } else {
      assert forall k :: 0 <= k < |stem| ==> s[k] == stem[k] && stem[k] in stem;
      assert first[..|stem|] == stem;
      IndexIs(first, '-', |stem|);
    }
  }

  lemma StemWhole(prefix: string)
    ensures Stem(prefix) == prefix <==> '-' !in prefix && '/' !in prefix
  {
  }

  lemma ParseAfter(head: string, prefix: string, rest: string)
    requires '/' !in head
    ensures ParsePrefix(head + ['/'] + (prefix + "-" + rest)) == Some(Stem(prefix))
  {
    SplitAfter(head, prefix + "-" + rest, '/');
    StemParsed(prefix, rest);
  }

  lemma ParseParts(a: string, account: string, b: string, prefix: string, e: string, f: string)
    requires '/' !in a && '/' !in account && '/' !in b
    ensures ParsePrefix(a + account + (b + ['/']) + prefix + "-" + e + f) == Some(Stem(prefix))
  {
    assert a + account + (b + ['/']) + prefix + "-" + e + f == (a + account + b) + ['/'] + (prefix + "-" + (e + f));
    ParseAfter(a + account + b, prefix, e + f);
  }

  lemma Literals()
    ensures '/' !in "arn:aws:iam::" && '/' !in ":role" && ":role/" == ":role" + ['/']
  {
  }

  /** Parsing a printed ARN gives the longest initial segment of the prefix free of '-' and '/', and
      so the prefix itself exactly when it contains neither. */
  lemma ParsePrinted(account: string, prefix: string, roleType: string)
    requires '/' !in account
    ensures ParsePrefix(RoleARN(account, prefix, roleType)) == Some(Stem(prefix))
    ensures ParsePrefix(RoleARN(account, prefix, roleType)) == Some(prefix) <==> '-' !in prefix && '/' !in prefix
  {
    Literals();
    ParseParts("arn:aws:iam::", account, ":role", prefix, roleType, "-Role");
    StemWhole(prefix);
  }
}
