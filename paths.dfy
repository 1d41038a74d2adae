/** The fixed directory layout of the build script, over an abstract path join. */
module Paths {
  import opened Text

  /** `path.join(dir, name)` without normalisation: the parts with one `/` between. */
  function Join(dir: string, name: string): (p: string)
    ensures |p| == |dir| + 1 + |name|
    ensures p[..|dir|] == dir && p[|dir|] == '/' && p[|dir| + 1..] == name
  {
    dir + "/" + name
  }

  /** The directory part a path joined under `dir` begins with. */
  predicate Under(dir: string, p: string) {
    |dir| < |p| && p[..|dir|] == dir && p[|dir|] == '/'
  }

  /** The name that `Join(dir, _)` put after `dir` (the inverse of `Join`). */
  function NameUnder(dir: string, p: string): string
    requires Under(dir, p)
  {
    p[|dir| + 1..]
  }

  lemma JoinInverse(dir: string, name: string)
    ensures Under(dir, Join(dir, name)) && NameUnder(dir, Join(dir, name)) == name
  {
  }

  /** A path joined from parts without spaces has no space. */
  lemma JoinNoSpace(dir: string, name: string)
    requires NoChar(' ', dir) && NoChar(' ', name)
    ensures NoChar(' ', Join(dir, name))
  {
    var p := Join(dir, name);
    forall i | 0 <= i < |p| ensures p[i] != ' ' {
      if i < |dir| {
        assert p[i] == p[..|dir|][i];
      } else if i > |dir| {
        assert p[i] == p[|dir| + 1..][i - |dir| - 1];
      }
    }
  }

  /** The static directories of src/index.js, relative to the script's own directory. */
  datatype Layout = Layout(broadway: string, src: string, inc: string, out: string)

  function StaticLayout(dirname: string): (l: Layout)
  {
    var broadway := Join(Join(dirname, ".."), "Broadway");
    Layout(broadway,
           Join(Join(broadway, "Decoder"), "src"),
           Join(Join(broadway, "Decoder"), "inc"),
           Join(Join(dirname, ".."), "build"))
  }

  /** Node's `__dirname` is absolute, so every static directory is too. */
  predicate Absolute(p: string) {
    |p| > 0 && p[0] == '/'
  }

  lemma JoinKeepsHead(dir: string, name: string)
    requires |dir| > 0
    ensures Join(dir, name)[0] == dir[0]
  {
    assert Join(dir, name)[0] == Join(dir, name)[..|dir|][0];
  }

  lemma StaticLayoutAbsolute(dirname: string)
    requires Absolute(dirname)
    ensures var l := StaticLayout(dirname);
      Absolute(l.broadway) && Absolute(l.src) && Absolute(l.inc) && Absolute(l.out)
  {
    var up := Join(dirname, "..");
    JoinKeepsHead(dirname, "..");
    JoinKeepsHead(up, "Broadway");
    JoinKeepsHead(up, "build");
    var b := Join(up, "Broadway");
    JoinKeepsHead(b, "Decoder");
    JoinKeepsHead(Join(b, "Decoder"), "src");
    JoinKeepsHead(Join(b, "Decoder"), "inc");
  }

  lemma StaticLayoutNoSpace(dirname: string)
    requires NoChar(' ', dirname)
    ensures var l := StaticLayout(dirname);
      NoChar(' ', l.broadway) && NoChar(' ', l.src) && NoChar(' ', l.inc) && NoChar(' ', l.out)
  {
    JoinNoSpace(dirname, "..");
    var up := Join(dirname, "..");
    JoinNoSpace(up, "Broadway");
    JoinNoSpace(up, "build");
    var b := Join(up, "Broadway");
    JoinNoSpace(b, "Decoder");
    JoinNoSpace(Join(b, "Decoder"), "src");
    JoinNoSpace(Join(b, "Decoder"), "inc");
  }
}
