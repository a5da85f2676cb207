/**
 * The names the handler derives from one submitted filename: the job base,
 * the local download path, the separation tool's command line, the local
 * stem files the tool leaves behind, and the object keys the stems are
 * published under.
 */
module Naming {
  import opened PosixPath
  import opened CollectionFacts

  /** Local directory the input object is downloaded into. */
  const UploadDir: string := "uploads"

  /** Root of the separation tool's output tree (`OUTPUT_BASE`). */
  const OutputBase: string := "separated"

  /** The separation model the tool is asked to use (`MODEL`). */
  const ModelName: string := "mdx_extra_q"

  /** The stems, in the order they are uploaded. */
  const Stems: seq<string> := ["vocals", "drums", "bass", "other"]

  /** The job base: the filename without its extension. */
  function JobBase(filename: string): (base: string)
    ensures base <= filename
    ensures filename != [] ==> base != []
  {
    SplitExt(filename).root
  }

  /** Where the input object is downloaded to: `os.path.join("uploads", filename)`. */
  function LocalInput(filename: string): string
  {
    Join(UploadDir, [filename])
  }

  /** The separation tool's command line. */
  function ToolArgv(filename: string): seq<string>
  {
    ["demucs", LocalInput(filename), "-n", ModelName, "--mp3", "--out", OutputBase]
  }

  /** The directory the tool's stems are read from: `os.path.join(OUTPUT_BASE, MODEL, base)`. */
  function OutDir(base: string): string
  {
    Join(OutputBase, [ModelName, base])
  }

  /** The local file one stem is uploaded from: `os.path.join(out_dir, f"{stem}.mp3")`. */
  function StemSource(base: string, stem: string): string
  {
    Join(OutDir(base), [stem + ".mp3"])
  }

  /** The object key one stem is published under: `f"{base}/{stem}.mp3"`. */
  function StemKey(base: string, stem: string): string
  {
    base + "/" + stem + ".mp3"
  }

  /** A relative filename is downloaded below `uploads/`; an absolute one replaces that prefix entirely. */
  lemma LocalInputPath(filename: string)
    ensures !IsAbsolute(filename) ==> LocalInput(filename) == "uploads/" + filename
    ensures IsAbsolute(filename) ==> LocalInput(filename) == filename
  {
    assert [filename][1..] == [];
    assert LocalInput(filename) == Join(JoinStep(UploadDir, filename), []);
    assert UploadDir + "/" == "uploads/";
  }

  /** The tool's output directory for a relative base lies below `separated/mdx_extra_q/`; an absolute base is used as it is. */
  lemma OutDirPath(base: string)
    ensures !IsAbsolute(base) ==> OutDir(base) == "separated/mdx_extra_q/" + base
    ensures IsAbsolute(base) ==> OutDir(base) == base
  {
    var parts := [ModelName, base];
    if IsAbsolute(base) {
      JoinRestartsAtAbsolute(OutputBase, parts, 1);
      assert parts[2..] == [];
    } else {
      var dir := JoinStep(OutputBase, ModelName);
      assert dir == "separated/mdx_extra_q";
      assert OutDir(base) == Join(dir, parts[1..]);
      assert parts[1..] == [base] && [base][1..] == [];
      assert Join(dir, [base]) == Join(JoinStep(dir, base), []);
    }
  }

  /** Each stem file sits directly inside the tool's output directory. */
  lemma StemSourceInOutDir(base: string, stem: string)
    requires !IsAbsolute(stem)
    ensures StemSource(base, stem) == OutDir(base) + (if EndsWithSep(OutDir(base)) then "" else "/") + (stem + ".mp3")
    ensures EndsWith(StemSource(base, stem), "/" + stem + ".mp3")
  {
    var dir := OutDir(base);
    var file := stem + ".mp3";
    JoinOne(dir, file);
    OutDirPath(base);
    JoinStepRelative(dir, file);
    assert "/" + stem + ".mp3" == "/" + file;
  }

  /**
   * For a non-empty relative base without a trailing '/', the stem file's path is the
   * stem's object key below `separated/mdx_extra_q/`.
   */
  lemma StemSourceMirrorsKey(base: string, stem: string)
    requires !IsAbsolute(stem)
    requires base != [] && !IsAbsolute(base) && !EndsWithSep(base)
    ensures StemSource(base, stem) == "separated/mdx_extra_q/" + StemKey(base, stem)
  {
    var file := stem + ".mp3";
    JoinOne(OutDir(base), file);
    OutDirPath(base);
    JoinStepBelow("separated/mdx_extra_q/", base, file);
    AppendAssoc(base + "/", stem, ".mp3");
  }

  /** What follows the last '/' of a key's directory part is the stem. */
  lemma {:induction false} BaseNameAfterSep(base: string, stem: string)
    requires '/' !in stem
    ensures BaseName(base + "/" + stem) == stem
    decreases |stem|
  {
    if stem != [] {
      var p := base + "/" + stem;
      var init := stem[..|stem| - 1];
      assert p[..|p| - 1] == base + "/" + init;
      BaseNameAfterSep(base, init);
      assert stem == init + [stem[|stem| - 1]];
    }
  }

  /** Distinct (base, stem) pairs get distinct keys, for stems without '/'. */
  lemma StemKeyInjective(base1: string, stem1: string, base2: string, stem2: string)
    requires '/' !in stem1 && '/' !in stem2
    requires StemKey(base1, stem1) == StemKey(base2, stem2)
    ensures base1 == base2 && stem1 == stem2
  {
    var k := StemKey(base1, stem1);
    var dir := k[..|k| - 4];
    assert dir == base1 + "/" + stem1 && dir == base2 + "/" + stem2;
    BaseNameAfterSep(base1, stem1);
    BaseNameAfterSep(base2, stem2);
    assert base1 == dir[..|base1|] && base2 == dir[..|base2|];
  }

  /** The four stem keys of one job are pairwise distinct. */
  lemma StemKeysDistinct(base: string, i: nat, j: nat)
    requires i < j < |Stems|
    ensures StemKey(base, Stems[i]) != StemKey(base, Stems[j])
  {
    if StemKey(base, Stems[i]) == StemKey(base, Stems[j]) {
      StemKeyInjective(base, Stems[i], base, Stems[j]);
    }
  }
}
