/**
 * The two list renderers of the command layer: GroupPermissions, the
 * comma-separated permissions of one group, and ListGroups, one numbered line
 * per group with its permissions each followed by "; ".
 */
module Listing {
  import opened Text
  import opened Backend

  /** Every element followed by `t`: the accumulator `s += x + t` over `xs`. */
  function Terminated(xs: seq<string>, t: string): string
    decreases |xs|
  {
    if |xs| == 0 then "" else Terminated(xs[..|xs| - 1], t) + xs[|xs| - 1] + t
  }

  /** Terminating every element is joining them and terminating the last. */
  lemma {:induction false} TerminatedIsJoin(xs: seq<string>, t: string)
    requires |xs| > 0
    ensures Terminated(xs, t) == Join(t, xs) + t
    decreases |xs|
  {
    var init := xs[..|xs| - 1];
    if |init| == 0 {
      assert Terminated(init, t) == "";
    } else {
      TerminatedIsJoin(init, t);
    }
  }

  method JoinTerminated(xs: seq<string>, t: string) returns (s: string)
    ensures s == Terminated(xs, t)
  {
    s := "";
    for i := 0 to |xs|
      invariant s == Terminated(xs[..i], t)
    {
      assert xs[..i + 1][..i] == xs[..i];
      s := s + (xs[i] + t);
    }
    assert xs[..|xs|] == xs;
  }

  // ---------------------------------------------------------------- GroupPermissions

  /**
   * GroupPermissions(cmd): the permissions of the group named by the second
   * token, separated by single commas; empty without that token.
   */
  function GroupPermissionsText(db: Database, cmd: string): string
  {
    var parsed := Tokenize(cmd);
    if |parsed| < 2 then "" else Join(",", GetGroupPermissions(db, parsed[1]))
  }

  method GroupPermissions(db: Database, cmd: string) returns (permissionsStr: string)
    ensures permissionsStr == GroupPermissionsText(db, cmd)
  {
    var parsed := Tokenize(cmd);
    if |parsed| < 2 {
      return "";
    }
    var group := parsed[1];
    var permissions := GetGroupPermissions(db, group);
    permissionsStr := JoinTerminated(permissions, ",");
    if |permissionsStr| > 0 {
      if |permissions| > 0 {
        TerminatedIsJoin(permissions, ",");
      }
      permissionsStr := permissionsStr[..|permissionsStr| - 1];
    }
  }

  /**
   * The rendering loses nothing: splitting it at commas gives back the
   * group's permissions, provided none is empty or holds a comma.
   */
  lemma GroupPermissionsRoundTrip(db: Database, cmd: string)
    requires |Tokenize(cmd)| >= 2
    requires var ps := GetGroupPermissions(db, Tokenize(cmd)[1]);
      forall i :: 0 <= i < |ps| ==> IsPiece(ps[i], ',')
    ensures Split(GroupPermissionsText(db, cmd), ',') == GetGroupPermissions(db, Tokenize(cmd)[1])
  {
    SplitJoin(',', GetGroupPermissions(db, Tokenize(cmd)[1]));
  }

  /** No trailing comma: the text ends with the last permission. */
  lemma GroupPermissionsLast(db: Database, cmd: string)
    requires |Tokenize(cmd)| >= 2
    requires var ps := GetGroupPermissions(db, Tokenize(cmd)[1]); |ps| > 1
    ensures var ps := GetGroupPermissions(db, Tokenize(cmd)[1]);
      var r := GroupPermissionsText(db, cmd);
      |r| >= |ps[|ps| - 1]| + 1 && r[|r| - |ps[|ps| - 1]|..] == ps[|ps| - 1]
      && r[|r| - |ps[|ps| - 1]| - 1] == ','
  {
    var ps := GetGroupPermissions(db, Tokenize(cmd)[1]);
    var last := ps[|ps| - 1];
    var r := GroupPermissionsText(db, cmd);
    assert r == Join(",", ps[..|ps| - 1]) + "," + last;
  }

  // ---------------------------------------------------------------- ListGroups

  /** One line of ListGroups: "i) group - p1; p2; " and a newline. */
  function ListLine(i: nat, group: string, permissions: seq<string>): string
  {
    ListEntry(i, group, permissions) + "\n"
  }

  /** A line without its newline. */
  function ListEntry(i: nat, group: string, permissions: seq<string>): string
  {
    NatToString(i) + ") " + group + " - " + Terminated(permissions, "; ")
  }

  /** The lines of `groups`, numbered from `first`. */
  function GroupLines(db: Database, groups: seq<string>, first: nat): string
    decreases |groups|
  {
    if |groups| == 0 then ""
    else
      var n := |groups| - 1;
      GroupLines(db, groups[..n], first) + ListLine(first + n, groups[n], GetGroupPermissions(db, groups[n]))
  }

  /** ListGroups(): every group of the store, in stored order, numbered from 1. */
  function ListGroupsText(db: Database): string
  {
    GroupLines(db, db.allGroups, 1)
  }

  method ListGroups(db: Database) returns (groups: string)
    ensures groups == ListGroupsText(db)
  {
    groups := "";
    var i := 1;
    var allGroups := db.allGroups;
    for k := 0 to |allGroups|
      invariant i == k + 1
      invariant groups == GroupLines(db, allGroups[..k], 1)
    {
      assert allGroups[..k + 1][..k] == allGroups[..k];
      var group := allGroups[k];
      var groupPermissions := GetGroupPermissions(db, group);
      var permissions := JoinTerminated(groupPermissions, "; ");
      groups := groups + (NatToString(i) + ") " + group + " - " + permissions + "\n");
      i := i + 1;
    }
    assert allGroups[..|allGroups|] == allGroups;
  }

  /** Splitting after a completed piece splits the two parts independently. */
  lemma {:induction false} PiecesAppend(a: string, b: string, sep: char, cur: string)
    requires sep !in cur
    requires |a| > 0 && a[|a| - 1] == sep
    ensures PiecesFrom(a + b, sep, cur) == PiecesFrom(a, sep, cur) + PiecesFrom(b, sep, "")
    decreases |a|
  {
    assert (a + b)[0] == a[0] && (a + b)[1..] == a[1..] + b;
    if |a| == 1 {
      assert a[1..] == [] && PiecesFrom(a[1..], sep, "") == [];
      assert a[1..] + b == b;
    } else if a[0] == sep {
      PiecesAppend(a[1..], b, sep, "");
    } else {
      PiecesAppend(a[1..], b, sep, cur + [a[0]]);
    }
  }

  lemma SplitAppend(a: string, b: string, sep: char)
    requires |a| == 0 || a[|a| - 1] == sep
    ensures Split(a + b, sep) == Split(a, sep) + Split(b, sep)
  {
    if |a| == 0 {
      assert a + b == b;
    } else {
      PiecesAppend(a, b, sep, "");
    }
  }

  ghost predicate NoNewline(s: string)
  {
    '\n' !in s
  }

  /** No group name and no permission of `groups` holds a newline. */
  ghost predicate Printable(db: Database, groups: seq<string>)
  {
    forall k :: 0 <= k < |groups| ==>
      NoNewline(groups[k]) && forall j :: 0 <= j < |GetGroupPermissions(db, groups[k])| ==>
        NoNewline(GetGroupPermissions(db, groups[k])[j])
  }

  lemma PrintablePrefix(db: Database, groups: seq<string>, n: nat)
    requires Printable(db, groups) && n <= |groups|
    ensures Printable(db, groups[..n])
  {
    forall k | 0 <= k < n
      ensures NoNewline(groups[..n][k])
      ensures forall j :: 0 <= j < |GetGroupPermissions(db, groups[..n][k])| ==>
        NoNewline(GetGroupPermissions(db, groups[..n][k])[j])
    {
      assert groups[..n][k] == groups[k];
    }
  }

  lemma {:induction false} TerminatedNoNewline(xs: seq<string>)
    requires forall j :: 0 <= j < |xs| ==> NoNewline(xs[j])
    ensures NoNewline(Terminated(xs, "; "))
    decreases |xs|
  {
    if |xs| > 0 {
      TerminatedNoNewline(xs[..|xs| - 1]);
    }
  }

  lemma EntryIsPiece(i: nat, group: string, permissions: seq<string>)
    requires NoNewline(group) && forall j :: 0 <= j < |permissions| ==> NoNewline(permissions[j])
    ensures IsPiece(ListEntry(i, group, permissions), '\n')
    ensures Split(ListLine(i, group, permissions), '\n') == [ListEntry(i, group, permissions)]
  {
    TerminatedNoNewline(permissions);
    var e := ListEntry(i, group, permissions);
    assert '\n' !in NatToString(i);
    assert e == NatToString(i) + (") " + (group + (" - " + Terminated(permissions, "; "))));
    PiecesFromWord(e, "\n", '\n', "");
    assert "" + e == e;
    assert ListLine(i, group, permissions) == e + "\n";
    assert PiecesFrom("\n", '\n', e) == [e] + PiecesFrom("", '\n', "");
  }

  /**
   * Line k (counting from 0) of ListGroups reads "k+1) group - ..." for the
   * k-th stored group, and there is exactly one line per group.
   */
  /** The lines of one more group are the earlier lines and its entry. */
  lemma GroupLinesSnoc(db: Database, groups: seq<string>, first: nat)
    requires |groups| > 0 && Printable(db, groups)
    ensures var n := |groups| - 1;
      Split(GroupLines(db, groups, first), '\n')
        == Split(GroupLines(db, groups[..n], first), '\n') + [ListEntry(first + n, groups[n], GetGroupPermissions(db, groups[n]))]
  {
    var n := |groups| - 1;
    var head := GroupLines(db, groups[..n], first);
    var perms := GetGroupPermissions(db, groups[n]);
    EntryIsPiece(first + n, groups[n], perms);
    assert |head| == 0 || head[|head| - 1] == '\n';
    SplitAppend(head, ListLine(first + n, groups[n], perms), '\n');
  }

  lemma {:induction false} LinesNumbered(db: Database, groups: seq<string>, first: nat)
    requires Printable(db, groups)
    ensures var lines := Split(GroupLines(db, groups, first), '\n');
      |lines| == |groups|
      && forall k :: 0 <= k < |groups| ==>
        lines[k] == ListEntry(first + k, groups[k], GetGroupPermissions(db, groups[k]))
    decreases |groups|
  {
    if |groups| > 0 {
      var n := |groups| - 1;
      PrintablePrefix(db, groups, n);
      LinesNumbered(db, groups[..n], first);
      GroupLinesSnoc(db, groups, first);
      var before := Split(GroupLines(db, groups[..n], first), '\n');
      var lines := before + [ListEntry(first + n, groups[n], GetGroupPermissions(db, groups[n]))];
      forall k | 0 <= k < |groups|
        ensures lines[k] == ListEntry(first + k, groups[k], GetGroupPermissions(db, groups[k]))
      {
        if k < n {
          assert groups[..n][k] == groups[k];
          assert lines[k] == before[k];
        }
      }
    }
  }

  lemma ListGroupsNumbered(db: Database)
    requires Printable(db, db.allGroups)
    ensures var lines := Split(ListGroupsText(db), '\n');
      |lines| == |db.allGroups|
      && forall k :: 0 <= k < |lines| ==>
        lines[k] == ListEntry(k + 1, db.allGroups[k], GetGroupPermissions(db, db.allGroups[k]))
  {
    LinesNumbered(db, db.allGroups, 1);
  }
}
