/**
 * The file system the hooks read and write: plain text files, JSON documents and the runner
 * scripts they generate, each keyed by its path. A path names a file in at most one of the
 * three maps.
 */
module Files {
  import opened Common
  import opened Paths
  import opened JsonValues

  /** The content of a JSON file: a value, or text that `JSON.parse` rejects. */
  datatype Doc = Garbled | Parsed(value: Json)

  /**
   * A generated runner script, described by what was written into it: the log path, the
   * prompt and working directory as the hook received them, the output style, and the
   * script's own path (which it deletes when it ends).
   */
  datatype Program =
    | EmbeddedRunner(logPath: Path, prompt: Json, workingDirectory: Json, outputStyle: Option<string>, scriptPath: Path)
    | CopiedScript(name: string)

  class FileSystem {
    var texts: map<Path, string>
    var docs: map<Path, Doc>
    var programs: map<Path, Program>

    constructor(texts: map<Path, string>, docs: map<Path, Doc>, programs: map<Path, Program>)
      ensures this.texts == texts && this.docs == docs && this.programs == programs
    {
      this.texts := texts;
      this.docs := docs;
      this.programs := programs;
    }

    /** The JSON file at `p`, if there is one. */
    function ReadDoc(p: Path): Option<Doc>
      reads this
    {
      if p in docs then Some(docs[p]) else None
    }

    /** The text file at `p`, if there is one. */
    function ReadText(p: Path): Option<string>
      reads this
    {
      if p in texts then Some(texts[p]) else None
    }

    /** `writeFileSync` of a text file. */
    method WriteText(p: Path, s: string)
      modifies this
      ensures texts == old(texts)[p := s]
      ensures docs == old(docs) && programs == old(programs)
    {
      texts := texts[p := s];
    }

    /** `appendFileSync`: the file is created when it does not exist. */
    method AppendText(p: Path, s: string)
      modifies this
      ensures texts == old(texts)[p := old(ReadText(p)).GetOr("") + s]
      ensures docs == old(docs) && programs == old(programs)
    {
      texts := texts[p := ReadText(p).GetOr("") + s];
    }

    /** `writeFileSync(p, JSON.stringify(value))`. */
    method WriteDoc(p: Path, value: Json)
      modifies this
      ensures docs == old(docs)[p := Parsed(value)]
      ensures texts == old(texts) && programs == old(programs)
    {
      docs := docs[p := Parsed(value)];
    }

    /** Writing a generated script. */
    method WriteProgram(p: Path, prog: Program)
      modifies this
      ensures programs == old(programs)[p := prog]
      ensures texts == old(texts) && docs == old(docs)
    {
      programs := programs[p := prog];
    }

    /** `unlinkSync`, whose failure on a missing file the hooks ignore. */
    method Unlink(p: Path)
      modifies this
      ensures texts == old(texts) - {p} && docs == old(docs) - {p} && programs == old(programs) - {p}
    {
      texts := texts - {p};
      docs := docs - {p};
      programs := programs - {p};
    }
  }
}
