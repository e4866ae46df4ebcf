/**
 * Key normalisation of `Container::keyBuilder` (src/Di/Container.php): trim a fixed set of
 * characters from both ends of a bind name.  The source then hashes the trimmed name with
 * md5; the model keeps the trimmed name itself as the key, which is the injective reading
 * of that hash.
 */
module Keys {

  /** The characters `trim` strips here: space, tab, newline, carriage return, NUL, vertical tab and backslash. */
  const TrimChars: set<char> := {' ', '\t', '\n', '\r', '\0', '\U{0B}', '\\'}

  type Key = string

  /** Every character of `p` is one that trimming strips. */
  predicate Padding(p: string) {
    forall k :: 0 <= k < |p| ==> p[k] in TrimChars
  }

  /** Neither end of `s` is a character that trimming strips. */
  predicate Unpadded(s: string) {
    s == [] || (s[0] !in TrimChars && s[|s| - 1] !in TrimChars)
  }

  /** Strip leading trim characters. */
  function TrimLeft(s: string): string {
    if |s| > 0 && s[0] in TrimChars then TrimLeft(s[1..]) else s
  }

  /** Strip trailing trim characters. */
  function TrimRight(s: string): string {
    if |s| > 0 && s[|s| - 1] in TrimChars then TrimRight(s[..|s| - 1]) else s
  }

  /** `TrimLeft` leaves the suffix after the longest padding prefix. */
  lemma {:induction false} TrimLeftIsSuffix(s: string)
    ensures |TrimLeft(s)| <= |s| && TrimLeft(s) == s[|s| - |TrimLeft(s)|..]
    ensures Padding(s[..|s| - |TrimLeft(s)|])
    ensures TrimLeft(s) == [] || TrimLeft(s)[0] !in TrimChars
  {
    if |s| > 0 && s[0] in TrimChars {
      var tail := s[1..];
      TrimLeftIsSuffix(tail);
      var r := TrimLeft(tail);
      assert TrimLeft(s) == r;
      forall k | 0 <= k < |s| - |r| ensures s[k] in TrimChars {
        if k > 0 {
          assert s[k] == tail[..|tail| - |r|][k - 1];
        }
      }
    }
  }

  /** `TrimRight` leaves the prefix before the longest padding suffix. */
  lemma {:induction false} TrimRightIsPrefix(s: string)
    ensures |TrimRight(s)| <= |s| && TrimRight(s) == s[..|TrimRight(s)|]
    ensures Padding(s[|TrimRight(s)|..])
    ensures TrimRight(s) == [] || TrimRight(s)[|TrimRight(s)| - 1] !in TrimChars
  {
    if |s| > 0 && s[|s| - 1] in TrimChars {
      var init := s[..|s| - 1];
      TrimRightIsPrefix(init);
      var r := TrimRight(init);
      assert TrimRight(s) == r;
      forall k | |r| <= k < |s| ensures s[k] in TrimChars {
        if k < |s| - 1 {
          assert s[k] == init[|r|..][k - |r|];
        }
      }
    }
  }

  /** PHP's `trim($name, " \t\n\r\0\x0B\\")`. */
  function Trim(s: string): string {
    TrimRight(TrimLeft(s))
  }

  /** `keyBuilder`: the normalised key under which a bind name is stored and looked up. */
  function KeyBuilder(name: string): Key {
    Trim(name)
  }

  /** The trimmed name is an unpadded infix of the name, with only trim characters cut off either side. */
  lemma TrimIsUnpaddedCore(s: string) returns (i: nat)
    ensures i + |Trim(s)| <= |s|
    ensures s[i..i + |Trim(s)|] == Trim(s)
    ensures Padding(s[..i]) && Padding(s[i + |Trim(s)|..])
    ensures Unpadded(Trim(s))
  {
    var l := TrimLeft(s);
    var r := TrimRight(l);
    TrimLeftIsSuffix(s);
    TrimRightIsPrefix(l);
    TrimRightKeepsStart(l);
    i := |s| - |l|;
    assert s[i..] == l;
    assert s[i..i + |r|] == l[..|r|];
    assert s[i + |r|..] == l[|r|..];
  }

  /** Trimming the right end of a string that starts with a kept character leaves it unpadded. */
  lemma TrimRightKeepsStart(l: string)
    requires l == [] || l[0] !in TrimChars
    ensures Unpadded(TrimRight(l))
  {
    TrimRightIsPrefix(l);
    if TrimRight(l) != [] {
      assert TrimRight(l)[0] == l[0];
    }
  }

  lemma {:induction false} TrimLeftOfPadded(pre: string, c: string)
    requires Padding(pre)
    requires c == [] || c[0] !in TrimChars
    ensures TrimLeft(pre + c) == c
  {
    if pre != [] {
      assert (pre + c)[1..] == pre[1..] + c;
      TrimLeftOfPadded(pre[1..], c);
    }
  }

  lemma {:induction false} TrimRightOfPadded(c: string, post: string)
    requires Padding(post)
    requires c == [] || c[|c| - 1] !in TrimChars
    ensures TrimRight(c + post) == c
  {
    if post != [] {
      assert (c + post)[..|c + post| - 1] == c + post[..|post| - 1];
      TrimRightOfPadded(c, post[..|post| - 1]);
    }
  }

  /** Cutting padding off an unpadded core gives back exactly that core. */
  lemma TrimOfPadded(pre: string, c: string, post: string)
    requires Padding(pre) && Padding(post) && Unpadded(c)
    ensures Trim(pre + c + post) == c
  {
    if c == [] {
      assert pre + c + post == (pre + post) + [];
      PaddingConcat(pre, post);
      TrimLeftOfPadded(pre + post, []);
    } else {
      assert pre + c + post == pre + (c + post);
      TrimLeftOfPadded(pre, c + post);
      TrimRightOfPadded(c, post);
    }
  }

  lemma PaddingConcat(a: string, b: string)
    requires Padding(a) && Padding(b)
    ensures Padding(a + b)
  {
    forall k | 0 <= k < |a + b| ensures (a + b)[k] in TrimChars {
      if k < |a| { assert (a + b)[k] == a[k]; } else { assert (a + b)[k] == b[k - |a|]; }
    }
  }

  lemma ThreeWaySplit(s: string, i: nat, j: nat)
    requires i <= j <= |s|
    ensures s == s[..i] + s[i..j] + s[j..]
  {
  }

  lemma Reassociate(a: string, b: string, c: string, d: string, e: string)
    ensures a + (b + c + d) + e == (a + b) + c + (d + e)
  {
  }

  /** Names that differ only by trim characters at either end hit the same key. */
  lemma KeyIgnoresPadding(pre: string, name: string, post: string)
    requires Padding(pre) && Padding(post)
    ensures KeyBuilder(pre + name + post) == KeyBuilder(name)
  {
    var i := TrimIsUnpaddedCore(name);
    var c := Trim(name);
    var j := i + |c|;
    var p1, p2 := name[..i], name[j..];
    ThreeWaySplit(name, i, j);
    assert pre + name + post == (pre + p1) + c + (p2 + post) by {
      assert name == p1 + c + p2;
      Reassociate(pre, p1, c, p2, post);
    }
    PaddingConcat(pre, p1);
    PaddingConcat(p2, post);
    TrimOfPadded(pre + p1, c, p2 + post);
  }

  /** Normalising a key again changes nothing. */
  lemma KeyIdempotent(name: string)
    ensures KeyBuilder(KeyBuilder(name)) == KeyBuilder(name)
  {
    var _ := TrimIsUnpaddedCore(name);
    assert [] + Trim(name) + [] == Trim(name);
    TrimOfPadded([], Trim(name), []);
  }

  /** Names without padding are their own keys, so case and interior characters still distinguish keys. */
  lemma UnpaddedNamesKeepDistinctKeys(a: string, b: string)
    requires Unpadded(a) && Unpadded(b) && a != b
    ensures KeyBuilder(a) != KeyBuilder(b)
  {
    assert [] + a + [] == a && [] + b + [] == b;
    TrimOfPadded([], a, []);
    TrimOfPadded([], b, []);
  }

  /** A leading namespace backslash and trailing blanks are ignored; letter case is not. */
  lemma KeyExamples()
    ensures KeyBuilder("\\Resources\\IDependency \n") == "Resources\\IDependency"
    ensures KeyBuilder("IDependency") != KeyBuilder("idependency")
  {
    var core := "Resources\\IDependency";
    assert Padding("\\") && Padding(" \n");
    assert Unpadded(core);
    assert "\\Resources\\IDependency \n" == "\\" + core + " \n";
    TrimOfPadded("\\", core, " \n");
    assert "IDependency"[0] == 'I' && "idependency"[0] == 'i';
    UnpaddedNamesKeepDistinctKeys("IDependency", "idependency");
  }
}
