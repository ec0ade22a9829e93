/**
 The version updater itself: the table of latest versions, the per-tool rewrite
 of the pinned `TOOL="x.y.z"` assignments, and the driver that runs that rewrite
 for every tool in turn. The versions file is modelled by its content: each
 step reads the content the previous step wrote.

 ToolsValidA to ToolsValidD and DockerFirstOnly only split the check of the
 literal tool list into pieces the solver handles quickly.
 */
module UpdateVersions {
  import opened VersionPattern
  import opened Substitution

  /** The hard-coded table of latest versions. */
  const LatestVersions: map<string, string> :=
    map["DOCKER_VERSION" := "20.10.7", "KUBERNETES_VERSION" := "v1.21.0"]

  /** The version a tool is moved to: its table entry, or "latest" when the tool
      has none. Every value is one the replacement can embed between quotes. */
  function FetchLatestVersion(tool: string): (v: string)
    ensures tool == "DOCKER_VERSION" ==> v == "20.10.7"
    ensures tool == "KUBERNETES_VERSION" ==> v == "v1.21.0"
    ensures tool != "DOCKER_VERSION" && tool != "KUBERNETES_VERSION" ==> v == "latest"
    ensures |v| > 0 && '"' !in v && '=' !in v
  {
    if tool in LatestVersions then LatestVersions[tool] else "latest"
  }

  /** Of the values the table can hand out, only Docker's is itself a version
      triple; the others start with a letter. */
  lemma LatestIsTripleOnlyForDocker(tool: string)
    ensures IsVersionTriple(FetchLatestVersion(tool)) <==> tool == "DOCKER_VERSION"
    ensures tool != "DOCKER_VERSION" ==> !IsDigit(FetchLatestVersion(tool)[0])
  {
    var v := FetchLatestVersion(tool);
    if tool == "DOCKER_VERSION" {
      assert DotsAt(v, 2, 5);
    } else {
      assert v[0] == 'v' || v[0] == 'l';
      if IsVersionTriple(v) {
        TripleChars(v);
      }
    }
  }

  /** `re.sub` of `TOOL="\d+\.\d+\.\d+"` by `TOOL="<latest>"` over the content. */
  function UpdateVersion(content: string, tool: string): (r: string) {
    Substitute(content, tool, Replacement(tool, FetchLatestVersion(tool)))
  }

  /** Content without a pin for the tool is returned unchanged. */
  lemma UpdateVersionNoMatch(content: string, tool: string)
    requires NoMatchIn(content, tool)
    ensures UpdateVersion(content, tool) == content
  {
    NoMatchUnchanged(content, tool, Replacement(tool, FetchLatestVersion(tool)));
  }

  /** One pin, between a prefix without pins and any rest: a numeric pin is
      moved to the latest version, any other value is left as it is, and the
      rest is updated on its own. */
  lemma PinRewritten(x: string, v: string, y: string, tool: string)
    requires ValidToolName(tool) && NoMatchIn(x, tool) && '"' !in v && '=' !in v
    ensures UpdateVersion(x + Replacement(tool, v) + y, tool)
      == x + Replacement(tool, if IsVersionTriple(v) then FetchLatestVersion(tool) else v)
        + UpdateVersion(y, tool)
  {
    SubstitutePin(x, v, y, tool, Replacement(tool, FetchLatestVersion(tool)));
  }

  /** A Docker pin at 20.10.0 is moved to 20.10.7. */
  lemma DockerPinUpdated(x: string, y: string)
    requires NoMatchIn(x, "DOCKER_VERSION")
    ensures UpdateVersion(x + Replacement("DOCKER_VERSION", "20.10.0") + y, "DOCKER_VERSION")
      == x + Replacement("DOCKER_VERSION", "20.10.7") + UpdateVersion(y, "DOCKER_VERSION")
  {
    assert DotsAt("20.10.0", 2, 5);
    PinRewritten(x, "20.10.0", y, "DOCKER_VERSION");
  }

  /** A `v`-prefixed pin is not a version triple, so it is never rewritten: a
      Kubernetes pin at v1.20.0 stays at v1.20.0. */
  lemma KubernetesPinUnchanged(x: string, y: string)
    requires NoMatchIn(x, "KUBERNETES_VERSION") && NoMatchIn(y, "KUBERNETES_VERSION")
    ensures UpdateVersion(x + Replacement("KUBERNETES_VERSION", "v1.20.0") + y, "KUBERNETES_VERSION")
      == x + Replacement("KUBERNETES_VERSION", "v1.20.0") + y
  {
    NotTriples();
    PinRewritten(x, "v1.20.0", y, "KUBERNETES_VERSION");
    UpdateVersionNoMatch(y, "KUBERNETES_VERSION");
  }

  /** Values the pattern refuses: a `v` prefix, a word, two components, four
      components. */
  lemma NotTriples()
    ensures !IsVersionTriple("v1.20.0") && !IsVersionTriple("latest")
    ensures !IsVersionTriple("1.2") && !IsVersionTriple("1.2.3.4")
  {
    if IsVersionTriple("v1.20.0") {
      TripleChars("v1.20.0");
    }
    if IsVersionTriple("latest") {
      TripleChars("latest");
    }
    if IsVersionTriple("1.2") {
      TripleChars("1.2");
    }
    ThreeDotsNotTriple("1.2.3.4", 1, 3, 5);
  }

  /** A value with three dots has too many components. */
  lemma ThreeDotsNotTriple(v: string, a: nat, b: nat, c: nat)
    requires a < b < c < |v| && v[a] == '.' && v[b] == '.' && v[c] == '.'
    ensures !IsVersionTriple(v)
  {
  }

  /** The pattern is not anchored on the left: a longer name that ends in the
      tool's name has its pin rewritten too. */
  lemma PrefixedNameRewritten(p: string, v: string, y: string, tool: string)
    requires ValidToolName(tool) && IsVersionTriple(v)
    requires forall i :: 0 <= i < |p| ==> IsNameChar(p[i])
    ensures UpdateVersion(p + Replacement(tool, v) + y, tool)
      == p + Replacement(tool, FetchLatestVersion(tool)) + UpdateVersion(y, tool)
  {
    var w := Replacement(tool, v);
    ReplacementChars(tool, v);
    LongerNameRewritten(p, w, y, tool, Replacement(tool, FetchLatestVersion(tool)));
  }

  /** The concrete case: `XDOCKER_VERSION="1.2.3"` becomes `XDOCKER_VERSION="20.10.7"`. */
  lemma PrefixedDockerExample()
    ensures UpdateVersion("X" + Replacement("DOCKER_VERSION", "1.2.3"), "DOCKER_VERSION")
      == "X" + Replacement("DOCKER_VERSION", "20.10.7")
  {
    var tool, v := "DOCKER_VERSION", "1.2.3";
    assert DotsAt(v, 1, 3);
    assert "X" + Replacement(tool, v) + "" == "X" + Replacement(tool, v);
    PrefixedNameRewritten("X", v, "", tool);
    assert UpdateVersion("", tool) == "";
  }

  /** Updating a tool a second time changes nothing. */
  lemma UpdateVersionIdempotent(content: string, tool: string)
    requires ValidToolName(tool)
    ensures UpdateVersion(UpdateVersion(content, tool), tool) == UpdateVersion(content, tool)
  {
    SubstituteIdempotent(content, tool, FetchLatestVersion(tool));
  }

  /** For every tool but Docker, the update leaves no numeric pin of the tool
      behind: every occurrence is replaced, and the replacement is not numeric. */
  lemma UpdateVersionClearsPins(content: string, tool: string)
    requires ValidToolName(tool) && tool != "DOCKER_VERSION"
    ensures NoMatchIn(UpdateVersion(content, tool), tool)
  {
    LatestIsTripleOnlyForDocker(tool);
    NoPinLeft(content, tool, FetchLatestVersion(tool));
  }

  /** Updating a tool other than Docker never creates a numeric pin for any tool. */
  lemma UpdateVersionKeepsCleared(content: string, tool: string, other: string)
    requires ValidToolName(tool) && ValidToolName(other) && other != "DOCKER_VERSION"
    requires NoMatchIn(content, tool)
    ensures NoMatchIn(UpdateVersion(content, other), tool)
  {
    LatestIsTripleOnlyForDocker(other);
    PreservesNoPin(content, tool, other, FetchLatestVersion(other));
  }

  /** The tools the driver updates, in order. */
  const Tools: seq<string> := [
    "DOCKER_VERSION",
    "KUBERNETES_VERSION",
    "HELM_VERSION",
    "RUST_VERSION",
    "GO_VERSION",
    "PYTHON_VERSION",
    "VAULT_VERSION",
    "ISTIO_VERSION",
    "KUBEFLOW_VERSION",
    "OPA_VERSION",
    "K9S_VERSION",
    "OPENAI_CLI_VERSION",
    "DATASETS_VERSION",
    "TRANSFORMERS_VERSION",
    "ACCELERATE_VERSION",
    "EVALUATE_VERSION",
    "TORCH_VERSION",
    "TENSORFLOW_VERSION"
  ]

  predicate ValidToolNames(tools: seq<string>) {
    forall i :: 0 <= i < |tools| ==> ValidToolName(tools[i])
  }

  /** Every listed name is made of name characters, Docker comes first and
      nowhere else. */
  lemma ToolsWellFormed()
    ensures |Tools| == 18 && ValidToolNames(Tools)
    ensures Tools[0] == "DOCKER_VERSION"
    ensures forall i :: 1 <= i < |Tools| ==> Tools[i] != "DOCKER_VERSION"
  {
    ToolsValid();
    DockerFirstOnly();
  }

  lemma ToolsValid()
    ensures ValidToolNames(Tools)
  {
    ToolsValidA();
    ToolsValidB();
    ToolsValidC();
    ToolsValidD();
    assert Tools == Tools[..5] + Tools[5..10] + Tools[10..14] + Tools[14..];
  }

  lemma ToolsValidA()
    ensures ValidToolNames(Tools[..5])
  {
  }

  lemma ToolsValidB()
    ensures ValidToolNames(Tools[5..10])
  {
  }

  lemma ToolsValidC()
    ensures ValidToolNames(Tools[10..14])
  {
  }

  lemma ToolsValidD()
    ensures ValidToolNames(Tools[14..])
  {
  }

  lemma DockerFirstOnly()
    ensures Tools[0] == "DOCKER_VERSION"
    ensures forall i :: 1 <= i < |Tools| ==> Tools[i] != "DOCKER_VERSION"
  {
  }

  /** The content after updating each of tools in turn, each step starting from
      the content the previous one wrote. */
  function ApplyTools(content: string, tools: seq<string>): (r: string)
    decreases |tools|
  {
    if tools == [] then content
    else UpdateVersion(ApplyTools(content, tools[..|tools| - 1]), tools[|tools| - 1])
  }

  /** Updating one list of tools and then another is updating their concatenation. */
  lemma {:induction false} ApplyToolsAppend(content: string, first: seq<string>, second: seq<string>)
    ensures ApplyTools(ApplyTools(content, first), second) == ApplyTools(content, first + second)
    decreases |second|
  {
    if second != [] {
      var last := |second| - 1;
      assert (first + second)[..|first + second| - 1] == first + second[..last];
      ApplyToolsAppend(content, first, second[..last]);
    } else {
      assert first + second == first;
    }
  }

  /** Content without a pin for any of the tools is returned unchanged. */
  lemma {:induction false} ApplyToolsUnchanged(content: string, tools: seq<string>)
    requires forall i :: 0 <= i < |tools| ==> NoMatchIn(content, tools[i])
    ensures ApplyTools(content, tools) == content
    decreases |tools|
  {
    if tools != [] {
      var last := |tools| - 1;
      ApplyToolsUnchanged(content, tools[..last]);
      UpdateVersionNoMatch(content, tools[last]);
    }
  }

  /** After the run, no tool has a numeric pin left unless Docker is updated at
      or after it: Docker's new value is the only numeric one, and only a Docker
      step can create a numeric pin. */
  lemma {:induction false} ApplyToolsClearsPins(content: string, tools: seq<string>, j: nat)
    requires ValidToolNames(tools)
    requires j < |tools| && "DOCKER_VERSION" !in tools[j..]
    ensures NoMatchIn(ApplyTools(content, tools), tools[j])
    decreases |tools|
  {
    var last := |tools| - 1;
    var before := ApplyTools(content, tools[..last]);
    assert tools[last] in tools[j..];
    if j == last {
      UpdateVersionClearsPins(before, tools[j]);
    } else {
      assert tools[..last][j..] == tools[j..last];
      assert forall t :: t in tools[j..last] ==> t in tools[j..];
      ApplyToolsClearsPins(content, tools[..last], j);
      UpdateVersionKeepsCleared(before, tools[j], tools[last]);
    }
  }

  /** One more tool: the step the driver's loop takes. */
  lemma ApplyToolsStep(content: string, tools: seq<string>, i: nat)
    requires i < |tools|
    ensures ApplyTools(content, tools[..i + 1]) == UpdateVersion(ApplyTools(content, tools[..i]), tools[i])
  {
    assert tools[..i + 1][..i] == tools[..i];
  }

  /** What the run over the listed tools achieves. */
  lemma ApplyAllTools(content: string)
    ensures forall i :: 1 <= i < |Tools| ==> NoMatchIn(ApplyTools(content, Tools), Tools[i])
    ensures (forall i :: 0 <= i < |Tools| ==> NoMatchIn(content, Tools[i]))
      ==> ApplyTools(content, Tools) == content
  {
    ToolsWellFormed();
    forall i | 1 <= i < |Tools|
      ensures NoMatchIn(ApplyTools(content, Tools), Tools[i])
    {
      assert "DOCKER_VERSION" !in Tools[i..];
      ApplyToolsClearsPins(content, Tools, i);
    }
    if forall i :: 0 <= i < |Tools| ==> NoMatchIn(content, Tools[i]) {
      ApplyToolsUnchanged(content, Tools);
    }
  }

  /** The driver: updates every listed tool in turn, each step starting from the
      content the previous one wrote. Afterwards no tool but Docker has a numeric
      pin left, and content without pins is unchanged. */
  method UpdateAllVersions(content: string) returns (result: string)
    ensures result == ApplyTools(content, Tools)
    ensures forall i :: 1 <= i < |Tools| ==> NoMatchIn(result, Tools[i])
    ensures (forall i :: 0 <= i < |Tools| ==> NoMatchIn(content, Tools[i])) ==> result == content
  {
    result := content;
    for i := 0 to |Tools|
      invariant result == ApplyTools(content, Tools[..i])
    {
      ApplyToolsStep(content, Tools, i);
      result := UpdateVersion(result, Tools[i]);
    }
    assert Tools[..|Tools|] == Tools;
    ApplyAllTools(content);
  }
}
