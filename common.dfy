/** Shared vocabulary of the storefront model: optional values, results, the outcome
    of a call to the hosted backend, the requests a screen issues, order-preserving
    filtering of lists, ASCII case mapping and substring search. */
module Common {

  datatype Option<+T> = None | Some(value: T)

  /** A value, or the reason it could not be produced (a thrown exception). */
  datatype Result<+T> = Ok(value: T) | Err(reason: string)

  /** What a call to the hosted backend reported: no error, or an error. */
  datatype Outcome = Succeeded | Failed

  /** A vendor account's review status: 'pending', 'approved' or 'rejected'. */
  datatype VendorStatus = Pending | Approved | Rejected

  /** A call issued to the hosted backend (authentication, a table, a storage bucket).
      Screens return the list of calls they made so that contracts can say which
      calls happen and in which order. */
  datatype Request =
    | GetUser
    | SignUp(email: string)
    | Select(table: string)
    | Insert(table: string)
    | Update(table: string, id: string)
    | Delete(table: string, id: string)
    | Upload(bucket: string, path: string)

  /** `r` is obtained from `s` by deleting elements, keeping the order of the rest. */
  predicate IsSubsequence<T(==)>(r: seq<T>, s: seq<T>)
    decreases |s|
  {
    r == [] || (s != [] && ((r[0] == s[0] && IsSubsequence(r[1..], s[1..])) || IsSubsequence(r, s[1..])))
  }

  /** Array.prototype.filter: the elements of `s` that `keep` accepts, in their order. */
  function Filter<T(==)>(s: seq<T>, keep: T -> bool): (r: seq<T>)
    ensures |r| <= |s|
  {
    if s == [] then []
    else if keep(s[0]) then [s[0]] + Filter(s[1..], keep)
    else Filter(s[1..], keep)
  }

  /** The filter keeps exactly the accepted elements: everything it returns comes from
      `s` and is accepted, every accepted element of `s` is returned as many times as it
      occurs in `s`, a rejected one never, and the order of `s` is kept. */
  lemma FilterSpec<T>(s: seq<T>, keep: T -> bool)
    ensures forall i :: 0 <= i < |Filter(s, keep)| ==> Filter(s, keep)[i] in s && keep(Filter(s, keep)[i])
    ensures forall i :: 0 <= i < |s| && keep(s[i]) ==> s[i] in Filter(s, keep)
    ensures forall x :: multiset(Filter(s, keep))[x] == if keep(x) then multiset(s)[x] else 0
    ensures IsSubsequence(Filter(s, keep), s)
  {
    FilterKeeps(s, keep);
    FilterCount(s, keep);
  }

  /** Membership and order: what the filter returns is accepted and from `s`, and every
      accepted element of `s` is returned. */
  lemma {:induction false} FilterKeeps<T>(s: seq<T>, keep: T -> bool)
    ensures forall i :: 0 <= i < |Filter(s, keep)| ==> Filter(s, keep)[i] in s && keep(Filter(s, keep)[i])
    ensures forall i :: 0 <= i < |s| && keep(s[i]) ==> s[i] in Filter(s, keep)
    ensures IsSubsequence(Filter(s, keep), s)
  {
    if s != [] {
      var tail := s[1..];
      FilterKeeps(tail, keep);
      var r, rt := Filter(s, keep), Filter(tail, keep);
      forall i | 0 <= i < |s| && keep(s[i])
        ensures s[i] in r
      {
        if i > 0 {
          assert s[i] == tail[i - 1];
        }
      }
      if keep(s[0]) {
        assert r == [s[0]] + rt;
        assert r[1..] == rt;
        forall i | 0 <= i < |r|
          ensures r[i] in s && keep(r[i])
        {
          if i > 0 {
            assert r[i] == rt[i - 1];
          }
        }
      }
    }
  }

  /** Each element occurs in the filtered sequence as often as in `s` when accepted, and
      not at all otherwise. */
  lemma {:induction false} FilterCount<T>(s: seq<T>, keep: T -> bool)
    ensures forall x :: multiset(Filter(s, keep))[x] == if keep(x) then multiset(s)[x] else 0
  {
    if s != [] {
      var tail := s[1..];
      FilterCount(tail, keep);
      var r, rt := Filter(s, keep), Filter(tail, keep);
      assert s == [s[0]] + tail;
      assert multiset(s) == multiset{s[0]} + multiset(tail);
      if keep(s[0]) {
        assert multiset(r) == multiset{s[0]} + multiset(rt);
      }
    }
  }

  /** Filtering distributes over concatenation. */
  lemma {:induction false} FilterAppend<T>(a: seq<T>, b: seq<T>, keep: T -> bool)
    ensures Filter(a + b, keep) == Filter(a, keep) + Filter(b, keep)
  {
    if a != [] {
      assert (a + b)[0] == a[0];
      assert (a + b)[1..] == a[1..] + b;
      FilterAppend(a[1..], b, keep);
      if keep(a[0]) {
        assert Filter(a + b, keep) == [a[0]] + Filter(a[1..] + b, keep);
      } else {
        assert Filter(a + b, keep) == Filter(a[1..] + b, keep);
      }
    } else {
      assert a + b == b;
    }
  }

  /** A filter that rejects nothing returns its input unchanged. */
  lemma {:induction false} FilterKeepsAll<T>(s: seq<T>, keep: T -> bool)
    requires forall i :: 0 <= i < |s| ==> keep(s[i])
    ensures Filter(s, keep) == s
  {
    if s != [] {
      FilterKeepsAll(s[1..], keep);
    }
  }

  /** A filter returns nothing exactly when it accepts no element. */
  lemma {:induction false} FilterEmpty<T>(s: seq<T>, keep: T -> bool)
    ensures Filter(s, keep) == [] <==> forall i :: 0 <= i < |s| ==> !keep(s[i])
  {
    if s != [] {
      FilterEmpty(s[1..], keep);
      assert forall i :: 1 <= i < |s| ==> s[i] == s[1..][i - 1];
    }
  }

  /** A filter that rejects exactly one position of `s` deletes that position and
      keeps every other element in its place. */
  lemma {:induction false} FilterDropsOne<T>(s: seq<T>, k: nat, keep: T -> bool)
    requires k < |s|
    requires !keep(s[k])
    requires forall i :: 0 <= i < |s| && i != k ==> keep(s[i])
    ensures Filter(s, keep) == s[..k] + s[k + 1..]
  {
    var tail := s[1..];
    if k == 0 {
      forall i | 0 <= i < |tail|
        ensures keep(tail[i])
      {
        assert tail[i] == s[i + 1];
      }
      FilterKeepsAll(tail, keep);
      assert s[k + 1..] == tail;
    } else {
      forall i | 0 <= i < |tail| && i != k - 1
        ensures keep(tail[i])
      {
        assert tail[i] == s[i + 1];
      }
      FilterDropsOne(tail, k - 1, keep);
      assert Filter(s, keep) == [s[0]] + (tail[..k - 1] + tail[k..]);
      assert [s[0]] + tail[..k - 1] == s[..k];
      assert tail[k..] == s[k + 1..];
    }
  }

  /** String.prototype.toLowerCase restricted to ASCII: 'A'..'Z' map to 'a'..'z',
      every other character is left as it is. */
  function LowerChar(c: char): char
  {
    if 'A' <= c <= 'Z' then (c as int + 32) as char else c
  }

  /** String.prototype.toUpperCase restricted to ASCII. */
  function UpperChar(c: char): char
  {
    if 'a' <= c <= 'z' then (c as int - 32) as char else c
  }

  function Lower(s: string): string
  {
    seq(|s|, i requires 0 <= i < |s| => LowerChar(s[i]))
  }

  function Upper(s: string): string
  {
    seq(|s|, i requires 0 <= i < |s| => UpperChar(s[i]))
  }

  predicate StartsWith(s: string, prefix: string)
  {
    |prefix| <= |s| && s[..|prefix|] == prefix
  }

  /** String.prototype.includes: `part` occurs in `s` at some position. */
  predicate Includes(s: string, part: string)
    decreases |s|
  {
    StartsWith(s, part) || (s != [] && Includes(s[1..], part))
  }

  /** Includes agrees with "there is a position at which `part` starts". */
  lemma {:induction false} IncludesAt(s: string, part: string)
    ensures Includes(s, part) <==> exists i :: 0 <= i <= |s| && StartsWith(s[i..], part)
  {
    if s != [] {
      IncludesAt(s[1..], part);
      if StartsWith(s, part) {
        assert s[0..] == s;
      }
      if Includes(s[1..], part) {
        var i :| 0 <= i <= |s[1..]| && StartsWith(s[1..][i..], part);
        assert s[1..][i..] == s[i + 1..];
        assert 0 <= i + 1 <= |s| && StartsWith(s[i + 1..], part);
      }
      if exists i :: 0 <= i <= |s| && StartsWith(s[i..], part) {
        var i :| 0 <= i <= |s| && StartsWith(s[i..], part);
        if i > 0 {
          assert s[1..][i - 1..] == s[i..];
          assert 0 <= i - 1 <= |s[1..]| && StartsWith(s[1..][i - 1..], part);
        } else {
          assert s[0..] == s;
        }
      }
    } else {
      assert s[0..] == s;
    }
  }

  /** Every string includes the empty string, so an empty search keeps everything. */
  lemma IncludesEmpty(s: string)
    ensures Includes(s, "")
  {
  }

  /** `name.split(".").pop()`: the text after the last '.', or the whole name when it has
      no '.'. */
  function AfterLastDot(name: string): string
  {
    if name == [] then []
    else if name[|name| - 1] == '.' then []
    else AfterLastDot(name[..|name| - 1]) + [name[|name| - 1]]
  }

  /** The extension is a suffix of the name without '.', and it is either the whole name
      or is preceded by a '.'; so it is the text after the last '.'. */
  lemma {:induction false} AfterLastDotSpec(name: string)
    ensures |AfterLastDot(name)| <= |name| && AfterLastDot(name) == name[|name| - |AfterLastDot(name)|..]
    ensures '.' !in AfterLastDot(name)
    ensures |AfterLastDot(name)| < |name| ==> name[|name| - |AfterLastDot(name)| - 1] == '.'
  {
    if name != [] && name[|name| - 1] != '.' {
      var init, last := name[..|name| - 1], name[|name| - 1];
      AfterLastDotSpec(init);
      var r := AfterLastDot(init);
      var k := |init| - |r|;
      assert name == init + [last];
      assert AfterLastDot(name) == r + [last];
      assert name[k..] == init[k..] + [last];
      assert forall i :: 0 <= i < |r| + 1 ==> (r + [last])[i] != '.' by {
        forall i | 0 <= i < |r| + 1
          ensures (r + [last])[i] != '.'
        {
          if i < |r| {
            assert (r + [last])[i] == r[i];
            assert r[i] in r;
          }
        }
      }
      if k > 0 {
        assert name[k - 1] == init[k - 1];
      }
    }
  }

  /** toggleExpand on a list with one expandable row at a time: the expanded row
      collapses, any other row becomes the only expanded one. */
  function Toggled(expanded: Option<string>, id: string): Option<string>
  {
    if expanded == Some(id) then None else Some(id)
  }

  /** A toggle expands the row exactly when it was not expanded, and a second toggle of
      the same row undoes the first. */
  lemma ToggleSpec(expanded: Option<string>, id: string)
    ensures Toggled(expanded, id) == Some(id) <==> expanded != Some(id)
    ensures Toggled(expanded, id) != Some(id) ==> Toggled(expanded, id) == None
    ensures Toggled(Toggled(expanded, id), id) == (if expanded == Some(id) then Some(id) else None)
  {
  }
}
