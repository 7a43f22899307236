// Which changed paths of a release ask for a person, path by path.
module ReleasePaths {
  import opened ReleasePlan

  /** Replaces the browser-host image, or changes infrastructure or what guards releases. */
  predicate Guarded(path: string) {
    || path in {"packages/domain/db/migrationRunner.ts", "packages/domain/db/queryable.ts",
                "scripts/productionSmoke.mjs", ".gitattributes", "Dockerfile.api", "Dockerfile.api.dockerignore",
                "package-lock.json"}
    || "infra/" <= path || ".github/" <= path || "tools/ci/" <= path || "tools/upgrade/" <= path
    || "packages/social-publisher/" <= path
  }

  /** Source, documentation, tests and certificates, and a few files beside them. */
  predicate Ordinary(path: string) {
    || "apps/" <= path || "packages/" <= path || "scripts/" <= path || "docs/" <= path || "test/" <= path
    || "tests/" <= path || "certs/" <= path
    || path in {"Dockerfile.worker", "Dockerfile.worker.dockerignore", "package.json", "README.md", "AGENTS.md",
                "CLAUDE.md"}
    || ("tsconfig" <= path && EndsIn(path, "tsconfig", ".json"))
    || ("eslint" <= path && EndsIn(path, "eslint", ".mjs"))
  }

  /** After its beginning the path ends so. */
  predicate EndsIn(path: string, start: string, end: string) {
    |start| + |end| <= |path| && path[|path| - |end|..] == end
  }

  /** A path asks for nobody exactly when it is ordinary and not guarded. */
  lemma PathFineExactly(path: string)
    ensures PathFine(path) <==> Ordinary(path) && !Guarded(path)
  {
    FineIsOrdinarySource(path);
    assert path == "Dockerfile.api" || path == "Dockerfile.api.dockerignore" ==> Guarded(path);
    SuffixIs(path);
  }

  lemma SuffixIs(path: string)
    ensures "tsconfig" <= path ==> (EndsIn(path, "tsconfig", ".json") <==> HasSuffix(path[8..], ".json"))
    ensures "eslint" <= path ==> (EndsIn(path, "eslint", ".mjs") <==> HasSuffix(path[6..], ".mjs"))
  {
    assert |"tsconfig"| == 8 && |"eslint"| == 6 && |".json"| == 5 && |".mjs"| == 4;
    if "tsconfig" <= path && 13 <= |path| {
      assert path[8..][|path[8..]| - 5..] == path[|path| - 5..];
    }
    if "eslint" <= path && 10 <= |path| {
      assert path[6..][|path[6..]| - 4..] == path[|path| - 4..];
    }
  }

  /** A release that changes a guarded path, or one that is nowhere ordinary, is never automatic. */
  lemma GuardedPathNeedsAPerson(i: Input, path: string)
    requires path in i.changed && (Guarded(path) || !Ordinary(path))
    ensures !NeedsNobody(i)
  {
    PathFineExactly(path);
  }
}
