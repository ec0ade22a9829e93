# Version pin updater — Dafny model

`scripts/update_versions.py` keeps the tool versions pinned in a configuration
file up to date. The file holds lines such as `DOCKER_VERSION="20.10.0"`.

For each of 18 tools the script does four things:

1. It reads the file.
2. It looks up the tool's latest version in a hard-coded table. Docker maps to
   `20.10.7`, Kubernetes maps to `v1.21.0`, and every other tool gets `latest`.
3. It replaces every `TOOL="<d>.<d>.<d>"` in the text with `TOOL="<latest>"`,
   using `re.sub` with the pattern `TOOL="\d+\.\d+\.\d+"`.
4. It writes the file back.

This project models that core in three modules:

- `VersionPattern` (`version_pattern.dfy`) covers the pin pattern.
  - `IsMatch` states what a word of the pattern is.
  - `MatchLen` is a deterministic scanner for it: greedy digit runs, a literal
    tool name, and the quotes.
  - The two are proved to agree in both directions.
  - A match can never reach into text that starts with its own tool name and
    `=`. From this it follows that matches never overlap. Nor can it reach into
    text that starts with another name, `="` and a non-digit.
- `Substitution` (`substitution.dfy`) models `re.sub`.
  - `Substitute` scans left to right. Where an occurrence starts, it emits the
    replacement and resumes after the occurrence. Anywhere else it copies one
    character.
  - The lemmas state that text without occurrences is copied verbatim and that
    each occurrence becomes exactly the replacement.
  - The lemmas also state which pins are rewritten and which are kept, that the
    rewrite is idempotent, and that it leaves no numeric pin behind when the new
    value is not numeric.
  - A further lemma shows that rewriting a tool whose new value does not start
    with a digit never creates a numeric pin for another tool. This covers
    every tool except Docker, whose new value `20.10.7` is numeric.
- `UpdateVersions` (`update_versions.dfy`) covers the script itself.
  - `FetchLatestVersion` is the version table.
  - `UpdateVersion` is the rewrite for one tool, on the file's content.
  - `Tools` is the list of 18 tools.
  - `ApplyTools` is the sequential run, with each step starting from the
    previous step's output.
  - `UpdateAllVersions` is the driver loop of `main`.

The file is modelled by its content: each call of `update_version` reads what
the previous call wrote. `Substitute` and `UpdateVersion` carry no contract of
their own. What they do is stated by the lemmas named in their rows below.

## Model

| member | source | states |
|---|---|---|
| VersionPattern.IsVersionTriple | scripts/update_versions.py:20 | reference definition, no contract: the value is three non-empty runs of digits separated by two dots; TripleLengthSound and TripleLengthComplete tie the scanner to it |
| VersionPattern.IsMatch | scripts/update_versions.py:20 | reference definition, no contract: a word of `TOOL="\d+\.\d+\.\d+"` with the tool name taken literally; MatchLenSound and MatchLenComplete tie MatchLen to it in both directions |
| VersionPattern.DigitRun | scripts/update_versions.py:20 | the greedy `\d+`: the count is at most the length, every counted character is a digit, and the next character, if any, is not |
| VersionPattern.TripleLength | scripts/update_versions.py:20 | a reported `\d+\.\d+\.\d+` is at least five characters long and lies within the text |
| VersionPattern.TripleLengthSound | scripts/update_versions.py:20 | what the triple scanner reports is a version triple: three non-empty digit runs separated by two dots |
| VersionPattern.TripleLengthComplete | scripts/update_versions.py:20 | a version triple at the start of the text that is not followed by a digit is found, with its exact length |
| VersionPattern.TripleChars | scripts/update_versions.py:20 | a version triple has at least five characters, starts with a digit and holds only digits and dots |
| VersionPattern.MatchLen | scripts/update_versions.py:20 | a reported occurrence of `TOOL="\d+\.\d+\.\d+"` is at least the name plus eight characters long and lies within the text |
| VersionPattern.MatchLenSound | scripts/update_versions.py:20 | every occurrence the scanner reports is a word of the pattern |
| VersionPattern.MatchLenComplete | scripts/update_versions.py:20 | every word of the pattern at the start of the text is reported with exactly its length, so at most one occurrence starts at any position |
| VersionPattern.MatchShape | scripts/update_versions.py:20 | an occurrence is the tool name, `="`, a digit, then digits and dots, and a closing quote |
| VersionPattern.NoCrossing | scripts/update_versions.py:20-22 | an occurrence that starts earlier ends before any text that begins with `TOOL=` |
| VersionPattern.NoCrossingOther | scripts/update_versions.py:20-22 | an occurrence for one tool ends before any text that begins with `OTHER="` followed by a non-digit |
| VersionPattern.NoOverlap | scripts/update_versions.py:20-22 | two occurrences never overlap: one starting at p ends at or before the start of any later one |
| Substitution.Substitute | scripts/update_versions.py:22 | no contract of its own: `re.sub` as a left-to-right scan; NoMatchUnchanged, SubstituteSplice, CopyUnmatched and NoPinLeft state what it does |
| Substitution.Replacement | scripts/update_versions.py:21 | the replacement `TOOL="<value>"` is three characters longer than name and value together; ReplacementChars gives it position by position |
| Substitution.ReplacementChars | scripts/update_versions.py:21 | the replacement is the tool name, `="`, the new value and a closing quote, position by position |
| Substitution.NoMatchUnchanged | scripts/update_versions.py:22 | text in which the pattern never occurs comes back unchanged |
| Substitution.CopyPrefix | scripts/update_versions.py:22 | text without occurrences is copied verbatim, up to the next `TOOL=` |
| Substitution.ReplaceMatch | scripts/update_versions.py:22 | an occurrence at the front becomes exactly the replacement, and the scan resumes after it |
| Substitution.SubstituteSplice | scripts/update_versions.py:22 | for text, then an occurrence, then a rest: the text is copied, the occurrence is replaced, and the rest is processed on its own |
| Substitution.MatchThroughSubstitute | scripts/update_versions.py:22 | rewriting the text after a position cannot create an occurrence that starts there |
| Substitution.UnmatchedStaysUnmatched | scripts/update_versions.py:22 | a position where the scan found no occurrence holds none in the output either |
| Substitution.CopyUnmatched | scripts/update_versions.py:22 | characters at which, in context, no occurrence starts are copied verbatim |
| Substitution.QuotedMatchLength | scripts/update_versions.py:20-21 | in a pin `TOOL="<value>"` whose value has no quote, an occurrence can only end at the pin's closing quote |
| Substitution.ReplacementMatch | scripts/update_versions.py:20-21 | `TOOL="<value>"` is an occurrence exactly when the value is a version triple, in both directions |
| Substitution.InnerNoMatch | scripts/update_versions.py:20-21 | no occurrence starts strictly inside a pin whose value holds no `=` |
| Substitution.SubstituteQuoted | scripts/update_versions.py:20-22 | a pin at the front is replaced when its value is a version triple and copied unchanged otherwise |
| Substitution.SubstitutePin | scripts/update_versions.py:20-22 | a pin after text without occurrences: the text is copied, and the pin is rewritten exactly when its value is a version triple |
| Substitution.LongerNameRewritten | scripts/update_versions.py:20-22 | the pattern is not anchored on the left, so a name that ends in the tool's name has its pin rewritten too |
| Substitution.SubstituteIdempotent | scripts/update_versions.py:20-22 | rewriting twice with `TOOL="<value>"`, where the value has no quote and no `=`, gives the same text as rewriting once |
| Substitution.NoMatchInReplacement | scripts/update_versions.py:20-21 | a non-numeric pin followed by text without occurrences holds no occurrence |
| Substitution.NoPinLeft | scripts/update_versions.py:20-22 | every occurrence is replaced, not only the first: with a non-numeric new value, no occurrence is left in the output |
| Substitution.BlockNoMatch | scripts/update_versions.py:20-21 | no occurrence for any tool starts inside another tool's replacement when its value opens with a non-digit and holds no `=` |
| Substitution.NoMatchInOpening | scripts/update_versions.py:20-21 | another tool's non-numeric replacement followed by text without occurrences holds none |
| Substitution.MatchThroughOther | scripts/update_versions.py:22 | rewriting the text after a position for another tool, with a non-numeric value, cannot create an occurrence that starts there |
| Substitution.PreservesNoPin | scripts/update_versions.py:20-22 | rewriting for another tool with a non-numeric value never creates an occurrence: text free of the pattern stays free of it |
| UpdateVersions.FetchLatestVersion | scripts/update_versions.py:6-14 | Docker gets `20.10.7`, Kubernetes gets `v1.21.0`, and any other name gets `latest` (the table is the constant `LatestVersions`); the function is total and its value is non-empty and holds no quote and no `=` |
| UpdateVersions.LatestIsTripleOnlyForDocker | scripts/update_versions.py:9-14 | among the table's values only Docker's is a version triple, in both directions; the others start with a non-digit |
| UpdateVersions.UpdateVersion | scripts/update_versions.py:20-22 | no contract of its own: the text step of update_version for one tool; UpdateVersionNoMatch, PinRewritten, UpdateVersionIdempotent and UpdateVersionClearsPins state what it does |
| UpdateVersions.UpdateVersionNoMatch | scripts/update_versions.py:20-22 | content without a pin for the tool is returned unchanged |
| UpdateVersions.PinRewritten | scripts/update_versions.py:20-22 | a numeric pin is moved to the latest version, any other pin is kept as is, and the text before it is copied |
| UpdateVersions.DockerPinUpdated | scripts/update_versions.py:10-22 | `DOCKER_VERSION="20.10.0"` becomes `DOCKER_VERSION="20.10.7"` |
| UpdateVersions.KubernetesPinUnchanged | scripts/update_versions.py:11-22 | `KUBERNETES_VERSION="v1.20.0"` is not matched and stays as it is |
| UpdateVersions.NotTriples | scripts/update_versions.py:20 | `v1.20.0`, `latest`, `1.2` and `1.2.3.4` are not version triples |
| UpdateVersions.PrefixedNameRewritten | scripts/update_versions.py:20-22 | a numeric pin of a longer name ending in the tool's name is rewritten for that tool |
| UpdateVersions.PrefixedDockerExample | scripts/update_versions.py:20-22 | `XDOCKER_VERSION="1.2.3"` becomes `XDOCKER_VERSION="20.10.7"` |
| UpdateVersions.UpdateVersionIdempotent | scripts/update_versions.py:20-22 | updating a tool a second time changes nothing |
| UpdateVersions.UpdateVersionClearsPins | scripts/update_versions.py:20-22 | for every tool but Docker, no numeric pin of the tool survives its update |
| UpdateVersions.UpdateVersionKeepsCleared | scripts/update_versions.py:20-22 | updating a tool other than Docker never creates a numeric pin for any tool |
| UpdateVersions.ToolsWellFormed | scripts/update_versions.py:30-49 | the constant `Tools` holds the 18 names in source order, made of letters, digits and `_`, with Docker first and nowhere else |
| UpdateVersions.ApplyTools | scripts/update_versions.py:51-52 | no contract of its own: the tools are updated in order, each step starting from the previous step's output; ApplyToolsStep and ApplyToolsAppend state how steps compose |
| UpdateVersions.ApplyToolsStep | scripts/update_versions.py:51-52 | one more tool is one more update applied to the content the earlier tools produced |
| UpdateVersions.ApplyToolsAppend | scripts/update_versions.py:51-52 | running one list of tools and then another is running their concatenation |
| UpdateVersions.ApplyToolsUnchanged | scripts/update_versions.py:51-52 | content without a pin for any of the tools is unchanged by the run |
| UpdateVersions.ApplyToolsClearsPins | scripts/update_versions.py:51-52 | after a run, no numeric pin is left for a tool unless Docker is updated at or after it |
| UpdateVersions.ApplyAllTools | scripts/update_versions.py:29-52 | after the run over the 18 tools, only Docker may still have a numeric pin, and content without pins is unchanged |
| UpdateVersions.UpdateAllVersions | scripts/update_versions.py:29-52 | the loop updates the tools in order, each step starting from the previous step's output; afterwards only Docker may have a numeric pin, and content without pins is unchanged |

## Left out

- Reading and writing the versions file (lines 17-18 and 24-25) and its path
  (line 4) are left out. The content is a string that each step passes to the
  next.
- PreservesNoPin and UpdateVersionKeepsCleared say nothing about Docker's
  rewrite. Its new value `20.10.7` is numeric, so they do not show that the
  Docker step creates no numeric pin for another tool.
- Newline translation is left out. The file is opened in text mode (lines 17
  and 24), so a file with `\r\n` line endings comes back with `\n` even when
  nothing matches. The model's "unchanged" is about the content string, not the
  bytes on disk.
- Errors from the file system, such as a missing file, are not modelled.
- The progress line printed after each tool (line 27) is left out.
- The unused `requests` import (line 1) and the `__main__` guard (lines 54-55)
  are left out. `UpdateAllVersions` stands for `main`.
- Python's `\d` also matches non-ASCII decimal digits. The model accepts only
  `0`-`9`.
- Tool names are limited to letters, digits and `_` (`ValidToolName`). The
  script does not escape a tool name before putting it into the pattern, so a
  name containing regular-expression metacharacters would act as a pattern. All
  18 listed names are plain, so this case is not modelled.
- The replacement is inserted literally. `re.sub` would interpret backslashes
  and group references in it, but none of the three values in the table
  contains any.
- Idempotence of the whole run is not proved, that is, that running `main` a
  second time changes nothing. It is proved for each tool
  (`UpdateVersionIdempotent`). It is also proved that after one run no tool
  except Docker has a numeric pin left.
- For Docker pins after the full run, the model does not prove that every
  remaining numeric pin reads `20.10.7`. It proves only what `PinRewritten` and
  `DockerPinUpdated` state for each pin.
