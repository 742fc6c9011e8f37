// The command ACL of API tokens: a token may run a command line only when
// one of its ACL patterns matches the whole line. A pattern is literal text
// in which `*` stands for any run of characters other than a newline; as
// with Python's `re` and a trailing `$`, the match may also end just before a
// single final newline.
module Security {
  import opened Common
  import opened TokenRows

  /** No newline character occurs in `s` (what `.` in Python's `re` accepts). */
  predicate NoNewline(s: string)
  {
    forall i :: 0 <= i < |s| ==> s[i] != '\n'
  }

  /** No `*` occurs in the pattern `p`. */
  predicate Literal(p: string)
  {
    forall i :: 0 <= i < |p| ==> p[i] != '*'
  }

  /**
   * `re.match('^' + re.escape(p).replace('\\*', '.*') + '$', s)`: the
   * pattern consumes `s` from the front; at the end of the pattern only the
   * empty rest or a lone newline is left.
   */
  function Matches(p: string, s: string): bool
    decreases |p| + |s|
  {
    if p == [] then s == [] || s == ['\n']
    else if p[0] == '*' then Matches(p[1..], s) || (s != [] && s[0] != '\n' && Matches(p, s[1..]))
    else s != [] && s[0] == p[0] && Matches(p[1..], s[1..])
  }

  /** A pattern without `*` matches exactly itself, with or without one final newline. */
  lemma {:induction false} LiteralMatchesItself(p: string, s: string)
    requires Literal(p)
    ensures Matches(p, s) <==> s == p || s == p + "\n"
    decreases |p|
  {
    if p != [] {
      assert p[0] != '*';
      assert Literal(p[1..]) by {
        forall i | 0 <= i < |p[1..]| ensures p[1..][i] != '*' {
          assert p[1..][i] == p[i + 1];
        }
      }
      if s != [] {
        LiteralMatchesItself(p[1..], s[1..]);
        assert s == p <==> s[0] == p[0] && s[1..] == p[1..] by {
          if s[0] == p[0] && s[1..] == p[1..] {
            assert s == [s[0]] + s[1..] && p == [p[0]] + p[1..];
          }
        }
        assert s == p + "\n" <==> s[0] == p[0] && s[1..] == p[1..] + "\n" by {
          assert p + "\n" == [p[0]] + (p[1..] + "\n");
          if s[0] == p[0] && s[1..] == p[1..] + "\n" {
            assert s == [s[0]] + s[1..];
          }
        }
      }
    }
  }

  /**
   * The `*` at the head of a pattern: the rest of the pattern must match what
   * is left after some run of non-newline characters.
   */
  lemma {:induction false} StarMatchesAnyRun(p: string, s: string)
    ensures Matches("*" + p, s) <==> exists i :: 0 <= i <= |s| && NoNewline(s[..i]) && Matches(p, s[i..])
    decreases |s|
  {
    var q := "*" + p;
    assert q[0] == '*' && q[1..] == p;
    if Matches(q, s) {
      if !Matches(p, s) {
        assert s != [] && s[0] != '\n' && Matches(q, s[1..]);
        StarMatchesAnyRun(p, s[1..]);
        var i :| 0 <= i <= |s[1..]| && NoNewline(s[1..][..i]) && Matches(p, s[1..][i..]);
        assert s[1..][i..] == s[i + 1..];
        var run := s[..i + 1];
        assert NoNewline(run) by {
          forall j | 0 <= j < |run| ensures run[j] != '\n' {
            if j > 0 {
              assert run[j] == s[1..][..i][j - 1];
            }
          }
        }
      } else {
        assert s[..0] == [] && s[0..] == s;
      }
    } else {
      forall i | 0 <= i <= |s| && NoNewline(s[..i])
        ensures !Matches(p, s[i..])
      {
        if i == 0 {
          assert s[0..] == s;
        } else {
          assert s[0] == s[..i][0];
          StarMatchesAnyRun(p, s[1..]);
          assert s[1..][..i - 1] == s[1..i] && s[1..][i - 1..] == s[i..];
          var run := s[1..][..i - 1];
          assert NoNewline(run) by {
            forall j | 0 <= j < |run| ensures run[j] != '\n' {
              assert run[j] == s[..i][j + 1];
            }
          }
        }
      }
    }
  }

  /** A literal head must be matched character for character; the rest of the pattern then matches what follows. */
  lemma {:induction false} LiteralHead(a: string, p: string, s: string)
    requires Literal(a)
    ensures Matches(a + p, s) <==> |a| <= |s| && s[..|a|] == a && Matches(p, s[|a|..])
    decreases |a|
  {
    if a != [] {
      assert (a + p)[0] == a[0] && (a + p)[1..] == a[1..] + p;
      assert Literal(a[1..]) by {
        forall i | 0 <= i < |a[1..]| ensures a[1..][i] != '*' {
          assert a[1..][i] == a[i + 1];
        }
      }
      if s != [] {
        LiteralHead(a[1..], p, s[1..]);
        if |a| <= |s| {
          assert s[1..][|a| - 1..] == s[|a|..];
          assert s[1..][..|a| - 1] == s[1..|a|];
          assert s[..|a|] == a <==> s[0] == a[0] && s[1..|a|] == a[1..] by {
            if s[0] == a[0] && s[1..|a|] == a[1..] {
              assert s[..|a|] == [s[0]] + s[1..|a|] && a == [a[0]] + a[1..];
            }
          }
        }
      }
    } else {
      assert a + p == p && s[..0] == a && s[0..] == s;
    }
  }

  /** A pattern `a*` with a literal head admits `a` followed by any run without a newline. */
  lemma RunAfterHead(a: string, t: string)
    requires Literal(a) && NoNewline(t)
    ensures Matches(a + "*", a + t)
  {
    LiteralHead(a, "*", a + t);
    assert (a + t)[..|a|] == a && (a + t)[|a|..] == t;
    StarMatchesAnyRun("", t);
    assert "*" + "" == "*" && t[..|t|] == t && t[|t|..] == "";
  }

  /** A pattern `a*b` with literal `a` and `b` admits `a`, any run without a newline, then `b`. */
  lemma RunBetween(a: string, t: string, b: string)
    requires Literal(a) && Literal(b) && NoNewline(t)
    ensures Matches(a + "*" + b, a + t + b)
  {
    assert a + "*" + b == a + ("*" + b) && a + t + b == a + (t + b);
    LiteralHead(a, "*" + b, a + (t + b));
    assert (a + (t + b))[..|a|] == a && (a + (t + b))[|a|..] == t + b;
    StarMatchesAnyRun(b, t + b);
    assert (t + b)[..|t|] == t && (t + b)[|t|..] == b;
    LiteralMatchesItself(b, b);
  }

  // The reference ACL set of the security tests, each pattern written as
  // its literal head, `*` and literal tail.

  /** The reference ACL set admits the lines it is meant for. */
  lemma ExampleMatches()
    ensures Matches("cd " + "*", "cd " + "/home/user/") && Matches("cd " + "*", "cd " + "../etc/")
    ensures Matches("ls " + "*", "ls " + "/var/log/")
    ensures Matches("git clone " + "*", "git clone " + "https://example.com/repo.git")
    ensures Matches("rm -rf /allowed/" + "*", "rm -rf /allowed/" + "specific_file")
    ensures Matches("docker compose -f " + "*" + " up -d", "docker compose -f " + "/home/docker-compose.yml" + " up -d")
  {
    RunAfterHead("cd ", "/home/user/");
    RunAfterHead("cd ", "../etc/");
    RunAfterHead("ls ", "/var/log/");
    RunAfterHead("git clone ", "https://example.com/repo.git");
    RunAfterHead("rm -rf /allowed/", "specific_file");
    RunBetween("docker compose -f ", "/home/docker-compose.yml", " up -d");
  }

  /** A line whose head differs from a pattern's literal head is refused. */
  lemma {:induction false} HeadMismatch(a: string, p: string, s: string, i: nat)
    requires Literal(a) && i < |a| && i < |s| && s[i] != a[i]
    ensures !Matches(a + p, s)
  {
    LiteralHead(a, p, s);
    if |a| <= |s| {
      assert s[..|a|][i] != a[i];
    }
  }

  /** The reference ACL set refuses another directory and an unlisted command. */
  lemma ExampleRejections()
    ensures !Matches("rm -rf /allowed/" + "*", "rm -rf /not/allowed/")
    ensures !Matches("cd " + "*", "pwd") && !Matches("ls " + "*", "pwd") && !Matches("git clone " + "*", "pwd")
  {
    HeadMismatch("rm -rf /allowed/", "*", "rm -rf /not/allowed/", 8);
    HeadMismatch("cd ", "*", "pwd", 0);
    HeadMismatch("ls ", "*", "pwd", 0);
    HeadMismatch("git clone ", "*", "pwd", 0);
  }

  /** A newline inside the line ends what `*` may cover, so `ls *` cannot admit a second command. */
  lemma SmuggledLineRefused()
    ensures !Matches("ls " + "*", "ls " + "a\nrm -rf /")
  {
    var t := "a\nrm -rf /";
    LiteralHead("ls ", "*", "ls " + t);
    assert ("ls " + t)[..3] == "ls " && ("ls " + t)[3..] == t;
    StarMatchesAnyRun("", t);
    assert forall i | 2 <= i <= |t| :: t[..i][1] == '\n';
    forall i | 0 <= i <= |t| && NoNewline(t[..i]) ensures !Matches("", t[i..]) {
      assert |t[i..]| >= 9;
    }
  }

  /** `docker compose -f * up -d` refuses the same line ending in `down`. */
  lemma ComposeDownRefused()
    ensures !Matches("docker compose -f " + "*" + " up -d", "docker compose -f " + "/home/docker-compose.yml down")
  {
    var a, b, t := "docker compose -f ", " up -d", "/home/docker-compose.yml down";
    assert a + "*" + b == a + ("*" + b);
    LiteralHead(a, "*" + b, a + t);
    assert (a + t)[..|a|] == a && (a + t)[|a|..] == t;
    StarMatchesAnyRun(b, t);
    // `t` ends in `n`, where `b` and `b` with a newline end otherwise.
    assert Literal(b) && t[|t| - 1] == 'n' && b[|b| - 1] == 'd' && (b + "\n")[|b|] == '\n';
    forall i | 0 <= i <= |t| && NoNewline(t[..i]) ensures !Matches(b, t[i..]) {
      LiteralMatchesItself(b, t[i..]);
      if i < |t| {
        assert t[i..][|t| - i - 1] == 'n';
      }
    }
  }

  /** `CommandACL.is_allowed`, declaratively: some ACL row of `token` matches `command`. */
  predicate Allowed(acls: map<Id, Acl>, token: Id, command: string)
  {
    exists k :: k in acls && acls[k].token == token && Matches(acls[k].command, command)
  }

  /** A token without ACL rows may run nothing. */
  lemma NoAclAllowsNothing(acls: map<Id, Acl>, token: Id, command: string)
    requires forall k :: k in acls ==> acls[k].token != token
    ensures !Allowed(acls, token, command)
  {
  }

  /** Only `token`'s own rows count: adding a row of another token changes no decision. */
  lemma OtherTokensDoNotCount(acls: map<Id, Acl>, token: Id, command: string, k: Id, row: Acl)
    requires k !in acls && row.token != token
    ensures Allowed(acls[k := row], token, command) <==> Allowed(acls, token, command)
  {
    if Allowed(acls[k := row], token, command) {
      var j :| j in acls[k := row] && acls[k := row][j].token == token && Matches(acls[k := row][j].command, command);
      assert j in acls;
    }
    if Allowed(acls, token, command) {
      var j :| j in acls && acls[j].token == token && Matches(acls[j].command, command);
      assert j != k && acls[k := row][j] == acls[j];
    }
  }

  /** `is_allowed(command, token)`: tries the token's ACL rows one by one and stops at the first match. */
  method IsAllowed(acls: map<Id, Acl>, token: Id, command: string) returns (allowed: bool)
    ensures allowed <==> Allowed(acls, token, command)
  {
    var rows := set k | k in acls && acls[k].token == token;
    var remaining := rows;
    while remaining != {}
      invariant remaining <= rows
      invariant forall k :: k in rows && k !in remaining ==> !Matches(acls[k].command, command)
      decreases remaining
    {
      var k :| k in remaining;
      if Matches(acls[k].command, command) {
        assert k in acls && acls[k].token == token;
        return true;
      }
      remaining := remaining - {k};
    }
    allowed := false;
    assert forall k :: k in acls && acls[k].token == token ==> k in rows;
  }
}
