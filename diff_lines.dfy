/** How the tools classify the lines of a unified diff. */
module DiffLines {
  import opened Text

  /** An added line: it starts with `+` but is not a `+++` file header. */
  predicate IsAddition(line: string) { StartsWith(line, "+") && !StartsWith(line, "+++") }

  /** A deleted line: it starts with `-` but is not a `---` file header. */
  predicate IsDeletion(line: string) { StartsWith(line, "-") && !StartsWith(line, "---") }
}
