/** Repository paths as the policy gate reads them. Lower-casing covers ASCII letters. */
module Paths {
  function Lower(c: char): char {
    if 'A' <= c <= 'Z' then c - 'A' + 'a' else c
  }

  function LowerSlashed(s: string): (t: string)
    ensures |t| == |s|
  {
    if s == "" then "" else [if s[0] == '\\' then '/' else Lower(s[0])] + LowerSlashed(s[1..])
  }

  function StripDots(s: string): string {
    if |s| >= 2 && s[0] == '.' && s[1] == '/' then StripDots(s[2..]) else s
  }

  /** Forward slashes, no leading `./`, lower case. */
  function Normalize(path: string): string {
    StripDots(LowerSlashed(path))
  }

  predicate Starts(s: string, prefix: string) {
    prefix <= s
  }

  predicate Ends(s: string, suffix: string) {
    |suffix| <= |s| && s[|s| - |suffix|..] == suffix
  }

  predicate Holds(s: string, part: string) {
    Starts(s, part) || (s != "" && Holds(s[1..], part))
  }

  /** `part` occurs in `s` at position `i`. */
  ghost predicate OccursAt(s: string, part: string, i: nat) {
    i + |part| <= |s| && s[i..i + |part|] == part
  }

  lemma {:induction false} HoldsIff(s: string, part: string)
    ensures Holds(s, part) <==> exists i: nat :: OccursAt(s, part, i)
  {
    if Starts(s, part) {
      assert OccursAt(s, part, 0);
    } else {
      assert !OccursAt(s, part, 0);
      if s != "" {
        HoldsIff(s[1..], part);
        if Holds(s[1..], part) {
          var i: nat :| OccursAt(s[1..], part, i);
          assert OccursAt(s, part, i + 1);
        }
        if j: nat :| OccursAt(s, part, j) {
          assert OccursAt(s[1..], part, j - 1);
        }
      }
    }
  }

  /** `t` is `path` without its first `k` repetitions of `./`, in lower case and with forward slashes. */
  ghost predicate NormalForm(path: string, t: string, k: nat) {
    && |path| == 2 * k + |t|
    && (forall i :: 0 <= i < |t| ==> t[i] == if path[2 * k + i] == '\\' then '/' else Lower(path[2 * k + i]))
    && !Starts(t, "./")
    && forall i :: 0 <= i < k ==> path[2 * i] == '.' && path[2 * i + 1] in "/\\"
  }

  lemma {:induction false} LowerSlashedAt(s: string, i: nat)
    requires i < |s|
    ensures LowerSlashed(s)[i] == if s[i] == '\\' then '/' else Lower(s[i])
  {
    if i > 0 {
      LowerSlashedAt(s[1..], i - 1);
    }
  }

  lemma {:induction false} Stripped(s: string) returns (k: nat)
    ensures |s| == 2 * k + |StripDots(s)| && StripDots(s) == s[2 * k..] && !Starts(StripDots(s), "./")
    ensures forall i :: 0 <= i < k ==> s[2 * i] == '.' && s[2 * i + 1] == '/'
  {
    if |s| >= 2 && s[0] == '.' && s[1] == '/' {
      var n := Stripped(s[2..]);
      k := n + 1;
      forall i | 0 <= i < k ensures s[2 * i] == '.' && s[2 * i + 1] == '/' {
        if i > 0 {
          assert s[2..][2 * (i - 1)] == '.' && s[2..][2 * (i - 1) + 1] == '/';
        }
      }
    } else {
      k := 0;
    }
  }

  lemma NormalizeMeans(path: string)
    ensures exists k: nat :: NormalForm(path, Normalize(path), k)
  {
    var low := LowerSlashed(path);
    forall i | 0 <= i < |path| ensures low[i] == if path[i] == '\\' then '/' else Lower(path[i]) {
      LowerSlashedAt(path, i);
    }
    var k := Stripped(low);
    assert forall i :: 0 <= i < k ==> low[2 * i] == '.' && low[2 * i + 1] == '/';
    assert NormalForm(path, Normalize(path), k);
  }

  /** The position of the last slash, or -1. */
  function LastSlash(s: string): (i: int)
    ensures -1 <= i < |s|
  {
    if s == "" then -1
    else
      var later := LastSlash(s[1..]);
      if later >= 0 then later + 1 else if s[0] == '/' then 0 else -1
  }

  function BaseName(s: string): string {
    s[LastSlash(s) + 1..]
  }

  datatype FileCategory =
    | Source | Test | Documentation | CI | Dependency | Security | Auth
    | Infrastructure | Migration | Configuration | UnknownCategory

  predicate IsDependency(base: string) {
    || base in {"requirements.txt", "pyproject.toml", "poetry.lock", "package.json", "package-lock.json",
                "pnpm-lock.yaml", "yarn.lock", "cargo.toml", "cargo.lock", "go.mod", "go.sum"}
    || Ends(base, ".lock")
  }

  predicate IsCI(p: string, base: string) {
    || Starts(p, ".github/workflows/")
    || base in {"jenkinsfile", "azure-pipelines.yml", ".gitlab-ci.yml"}
  }

  predicate IsMigration(p: string) {
    Holds("/" + p + "/", "/migrations/") || Starts(p, "migrations/") || Holds("/" + p + "/", "/alembic/")
  }

  predicate IsAuth(p: string) {
    Starts(p, "auth/") || Holds("/" + p + "/", "/auth/") || Holds(p, "authorization") || Holds(p, "permission")
  }

  predicate IsSecurity(p: string, base: string) {
    || Holds(p, "secret") || Starts(p, "secrets/") || Holds(p, "credential")
    || base in {".env", "id_rsa"} || Holds(p, "crypt")
  }

  predicate IsTest(p: string, base: string) {
    || Starts(p, "tests/") || Starts(p, "test/") || Holds("/" + p + "/", "/tests/")
    || Starts(base, "test_") || Ends(base, "_test.py")
  }

  predicate IsDocumentation(p: string, base: string) {
    Starts(p, "docs/") || Ends(base, ".md") || base in {"readme", "readme.md", "changelog.md"}
  }

  predicate IsSource(p: string) {
    || Starts(p, "src/") || Starts(p, "ci_failure_orchestrator/")
    || Ends(p, ".py") || Ends(p, ".ts") || Ends(p, ".js") || Ends(p, ".go") || Ends(p, ".rs")
  }

  predicate IsConfiguration(base: string) {
    || Ends(base, ".yml") || Ends(base, ".yaml") || Ends(base, ".toml")
    || Ends(base, ".ini") || Ends(base, ".cfg") || Ends(base, ".json")
  }

  /** The category of a normalized path. */
  function Classify(p: string): FileCategory {
    var base := BaseName(p);
    if IsDependency(base) then Dependency
    else if IsCI(p, base) then CI
    else if IsMigration(p) then Migration
    else if IsInfrastructure(p) then Infrastructure
    else if IsAuth(p) then Auth
    else if IsSecurity(p, base) then Security
    else if IsTest(p, base) then Test
    else if IsDocumentation(p, base) then Documentation
    else if IsSource(p) then Source
    else if IsConfiguration(base) then Configuration
    else UnknownCategory
  }

  predicate IsInfrastructure(p: string) {
    Starts(p, "infra/") || Starts(p, "terraform/") || Starts(p, "deploy/")
  }

  /** Each of the eleven categories exactly when it is given: a path counts as the most sensitive thing
      it can be, and a lock file, a workflow or a migration as that before anything else. */
  lemma ClassifyIff(p: string)
    ensures var base := BaseName(p);
      var special := IsDependency(base) || IsCI(p, base) || IsMigration(p) || IsInfrastructure(p);
      var sensitive := special || IsAuth(p) || IsSecurity(p, base);
      && (Classify(p).Dependency? <==> IsDependency(base))
      && (Classify(p).CI? <==> IsCI(p, base) && !IsDependency(base))
      && (Classify(p).Migration? <==> IsMigration(p) && !IsCI(p, base) && !IsDependency(base))
      && (Classify(p).Infrastructure? <==>
            IsInfrastructure(p) && !IsMigration(p) && !IsCI(p, base) && !IsDependency(base))
      && (Classify(p).Auth? <==> IsAuth(p) && !special)
      && (Classify(p).Security? <==> IsSecurity(p, base) && !IsAuth(p) && !special)
      && (Classify(p).Test? <==> IsTest(p, base) && !sensitive)
      && (Classify(p).Documentation? <==> IsDocumentation(p, base) && !IsTest(p, base) && !sensitive)
      && (Classify(p).Source? <==> IsSource(p) && !IsDocumentation(p, base) && !IsTest(p, base) && !sensitive)
      && (Classify(p).Configuration? <==>
            (IsConfiguration(base) && !IsSource(p) && !IsDocumentation(p, base) && !IsTest(p, base) && !sensitive))
      && (Classify(p).UnknownCategory? <==>
            (!IsConfiguration(base) && !IsSource(p) && !IsDocumentation(p, base) && !IsTest(p, base) && !sensitive))
  {
  }

  /** Paths that carry secrets by their name alone. */
  predicate IsSecretPath(p: string) {
    Starts(p, ".env") || Starts(p, "secrets/") || Holds(p, "id_rsa")
  }

  /** What the gate derives from one changed path. */
  datatype ChangedFile = ChangedFile(path: string, category: FileCategory, directories: set<string>, secret: bool)

  function Inspect(path: string): ChangedFile {
    var p := Normalize(path);
    ChangedFile(p, Classify(p), if LastSlash(p) < 0 then {} else {p[..LastSlash(p)]}, IsSecretPath(p))
  }

  // ---------------------------------------------------- some classified paths

  /** Lower case, without separators. */
  ghost predicate Plain(s: string) {
    forall i :: 0 <= i < |s| ==> s[i] != '/' && s[i] != '\\' && !('A' <= s[i] <= 'Z')
  }

  lemma {:induction false} PlainStays(s: string)
    requires Plain(s)
    ensures LowerSlashed(s) == s && LastSlash(s) == -1
  {
    if s != "" {
      PlainStays(s[1..]);
    }
  }

  lemma {:induction false} ShortHoldsNothing(s: string, part: string)
    requires |s| < |part|
    ensures !Holds(s, part)
  {
    if s != "" {
      ShortHoldsNothing(s[1..], part);
    }
  }

  lemma LongPartIsWhole(s: string, part: string)
    requires |s| == |part| && Holds(s, part) && s != ""
    ensures s == part
  {
    ShortHoldsNothing(s[1..], part);
  }

  lemma PlainName(s: string)
    requires Plain(s)
    ensures Normalize(s) == s && LastSlash(s) == -1 && BaseName(s) == s
  {
    PlainStays(s);
    assert s[0..] == s;
  }

  lemma NotAuth(s: string)
    requires 1 <= |s| <= 4 && s[0] == '.'
    ensures !IsAuth(s)
  {
    var framed := "/" + s + "/";
    assert framed[1] == '.';
    ShortHoldsNothing(s, "authorization");
    ShortHoldsNothing(s, "permission");
    if |s| < 4 {
      ShortHoldsNothing(framed, "/auth/");
    } else if Holds(framed, "/auth/") {
      LongPartIsWhole(framed, "/auth/");
    }
  }

  lemma NotMigration(s: string)
    requires |s| <= 4
    ensures !IsMigration(s)
  {
    ShortHoldsNothing("/" + s + "/", "/migrations/");
    ShortHoldsNothing("/" + s + "/", "/alembic/");
  }

  lemma NotTest(s: string)
    requires |s| <= 4
    ensures !IsTest(s, s)
  {
    ShortHoldsNothing("/" + s + "/", "/tests/");
  }

  lemma NotSecurity(s: string)
    requires |s| <= 4 && s != ".env"
    ensures !IsSecurity(s, s) && !IsSecretPath(s)
  {
    ShortHoldsNothing(s, "secret");
    ShortHoldsNothing(s, "credential");
    ShortHoldsNothing(s, "crypt");
    ShortHoldsNothing(s, "id_rsa");
  }

  /** Dot files with short names are classified by their ending alone. */
  lemma ShortDotFile(s: string)
    requires Plain(s) && 1 <= |s| <= 4 && s[0] == '.'
    ensures !IsDependency(s) && !IsCI(s, s) && !Starts(s, "infra/") && !Starts(s, "terraform/") && !Starts(s, "deploy/")
  {
  }

  lemma ShortDotClass(s: string)
    requires Plain(s) && 1 <= |s| <= 4 && s[0] == '.' && s != ".env"
    ensures Classify(s) ==
      if IsDocumentation(s, s) then Documentation else if IsSource(s) then Source
      else if IsConfiguration(s) then Configuration else UnknownCategory
  {
    PlainName(s);
    ShortDotFile(s);
    NotAuth(s);
    NotMigration(s);
    NotTest(s);
    NotSecurity(s);
  }

  lemma IniIsConfiguration(s: string)
    requires |s| == 4 && s[0] == '.' && s[1] == 'i' && s[2] == 'n' && s[3] == 'i'
    ensures !IsDocumentation(s, s) && !IsSource(s) && IsConfiguration(s)
  {
    var last := s[1..];
    assert last[0] == 'i' && s[0..] == s;
    assert Ends(s, ".ini");
  }

  lemma InspectPlain(s: string, c: FileCategory)
    ensures Normalize(s) == s && LastSlash(s) == -1 && Classify(s) == c && !IsSecretPath(s) ==>
      Inspect(s) == ChangedFile(s, c, {}, false)
  {
  }

  lemma PyIsSource(s: string)
    requires |s| == 3 && s[0] == '.' && s[1] == 'p' && s[2] == 'y'
    ensures !IsDocumentation(s, s) && IsSource(s)
  {
    assert s[0..] == s;
    assert Ends(s, ".py");
  }

  lemma ShortDotInspected(s: string, c: FileCategory)
    requires Plain(s) && 1 <= |s| <= 4 && s[0] == '.' && s != ".env" && Classify(s) == c
    ensures Inspect(s) == ChangedFile(s, c, {}, false)
  {
    PlainName(s);
    NotSecurity(s);
    InspectPlain(s, c);
  }

  /** The path `.py` */
  lemma SourceInspected(s: string)
    requires |s| == 3 && s[0] == '.' && s[1] == 'p' && s[2] == 'y'
    ensures Inspect(s) == ChangedFile(s, Source, {}, false)
  {
    PyIsSource(s);
    ShortDotClass(s);
    ShortDotInspected(s, Source);
  }

  /** The path `.ini` */
  lemma ConfigurationInspected(s: string)
    requires |s| == 4 && s[0] == '.' && s[1] == 'i' && s[2] == 'n' && s[3] == 'i'
    ensures Inspect(s) == ChangedFile(s, Configuration, {}, false)
  {
    IniIsConfiguration(s);
    ShortDotClass(s);
    ShortDotInspected(s, Configuration);
  }

  lemma LockIsDependency(s: string)
    requires |s| == 5 && s[0] == '.' && s[1] == 'l' && s[2] == 'o' && s[3] == 'c' && s[4] == 'k'
    ensures IsDependency(s) && !IsSecretPath(s)
  {
    assert s[0..] == s;
    assert Ends(s, ".lock");
    ShortHoldsNothing(s, "id_rsa");
  }

  lemma DependencyClass(s: string)
    ensures BaseName(s) == s && IsDependency(s) ==> Classify(s) == Dependency
  {
  }

  /** The path `.lock` */
  lemma LockInspected(s: string)
    requires |s| == 5 && s[0] == '.' && s[1] == 'l' && s[2] == 'o' && s[3] == 'c' && s[4] == 'k'
    ensures Inspect(s) == ChangedFile(s, Dependency, {}, false)
  {
    PlainName(s);
    LockIsDependency(s);
    DependencyClass(s);
    InspectPlain(s, Dependency);
  }

  lemma EnvIsSecurity(s: string)
    requires |s| == 4 && s[0] == '.' && s[1] == 'e' && s[2] == 'n' && s[3] == 'v'
    ensures IsSecurity(s, s) && IsSecretPath(s)
  {
    assert s[0..] == s && s == ".env";
  }

  lemma SecurityClass(s: string)
    requires BaseName(s) == s && !IsDependency(s) && !IsCI(s, s) && !IsMigration(s) && !IsAuth(s)
    requires !Starts(s, "infra/") && !Starts(s, "terraform/") && !Starts(s, "deploy/")
    ensures IsSecurity(s, s) ==> Classify(s) == Security
  {
  }

  lemma EnvClass(s: string)
    requires Plain(s) && 1 <= |s| <= 4 && s[0] == '.' && IsSecurity(s, s)
    ensures Classify(s) == Security
  {
    PlainName(s);
    ShortDotFile(s);
    NotAuth(s);
    NotMigration(s);
    SecurityClass(s);
  }

  lemma InspectedCategory(s: string)
    ensures Normalize(s) == s ==> Inspect(s).category == Classify(s)
  {
  }

  lemma PlainInspected(s: string, c: FileCategory)
    requires Plain(s) && Classify(s) == c
    ensures Inspect(s).category == c
  {
    PlainName(s);
    InspectedCategory(s);
  }

  /** The path `.env` */
  lemma SecretInspected(s: string)
    requires |s| == 4 && s[0] == '.' && s[1] == 'e' && s[2] == 'n' && s[3] == 'v'
    ensures Inspect(s).category == Security
  {
    EnvIsSecurity(s);
    EnvClass(s);
    PlainInspected(s, Security);
  }
}
