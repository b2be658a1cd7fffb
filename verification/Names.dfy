/** Qualified method names: "/service/method". */
module Names {
  import opened Messages

  function QualifiedMethodName(service: string, method_: string): string {
    "/" + service + "/" + method_
  }

  /** strings.Split(s, "/"). */
  function Split(s: string): (parts: seq<string>)
    ensures parts != []
  {
    if s == "" then [""]
    else if s[0] == '/' then [""] + Split(s[1..])
    else
      var rest := Split(s[1..]);
      [[s[0]] + rest[0]] + rest[1..]
  }

  /** parseQualifiedMethod; None where the original returns an error. */
  function Parse(s: string): Option<(string, string)> {
    var parts := Split(s);
    if |parts| != 3 then None else Some((parts[1], parts[2]))
  }

  function Slashes(s: string): nat {
    if s == "" then 0 else (if s[0] == '/' then 1 else 0) + Slashes(s[1..])
  }

  lemma {:induction false} SplitCounts(s: string)
    ensures |Split(s)| == Slashes(s) + 1
  {
    if s != "" {
      SplitCounts(s[1..]);
    }
  }

  lemma {:induction false} SlashesAppend(a: string, b: string)
    ensures Slashes(a + b) == Slashes(a) + Slashes(b)
  {
    if a == "" {
      assert a + b == b;
    } else {
      assert (a + b)[1..] == a[1..] + b;
      SlashesAppend(a[1..], b);
    }
  }

  lemma {:induction false} NoSlashes(s: string)
    ensures Slashes(s) == 0 <==> '/' !in s
  {
    if s != "" {
      NoSlashes(s[1..]);
      assert s == [s[0]] + s[1..];
    }
  }

  /** A part without a separator stays whole. */
  lemma {:induction false} SplitFirst(a: string, b: string)
    requires '/' !in a
    ensures Split(a) == [a]
    ensures Split(a + "/" + b) == [a] + Split(b)
  {
    if a == "" {
      assert a + "/" + b == "/" + b;
      assert ("/" + b)[1..] == b;
    } else {
      assert a == [a[0]] + a[1..];
      assert (a + "/" + b)[1..] == a[1..] + "/" + b;
      SplitFirst(a[1..], b);
      assert [a[0]] + a[1..] == a;
    }
  }

  /** Printing and parsing give the names back exactly when neither contains a slash;
      otherwise parsing fails. */
  lemma QualifiedNameRoundTrip(service: string, method_: string)
    ensures '/' !in service && '/' !in method_ ==> Parse(QualifiedMethodName(service, method_)) == Some((service, method_))
    ensures '/' !in service && '/' !in method_ ==> Split(QualifiedMethodName(service, method_)) == ["", service, method_]
    ensures '/' in service || '/' in method_ ==> Parse(QualifiedMethodName(service, method_)).None?
  {
    var s := QualifiedMethodName(service, method_);
    if '/' !in service && '/' !in method_ {
      assert s == "" + "/" + (service + "/" + method_);
      SplitFirst("", service + "/" + method_);
      SplitFirst(service, method_);
      SplitFirst(method_, "");
    } else {
      SplitCounts(s);
      SlashesAppend("/" + service + "/", method_);
      SlashesAppend("/" + service, "/");
      SlashesAppend("/", service);
      assert Slashes("/") == 1;
      NoSlashes(service);
      NoSlashes(method_);
    }
  }
}
