/** The per-profile knowledge base (app/kb.py): word-window chunking, the chunk records
    written at ingestion, top-k retrieval over the stored vectors and the context block
    handed to the model. The gem's data directory is the state of a `KnowledgeBase`
    object: the names in its `files/` folder and the two index artifacts. */
module Kb {
  import opened Wrappers
  import opened PyText
  import Llm
  import Ranking

  type Vector = Llm.Vector

  // ---------------------------------------------------------------------------
  // Chunking

  const DefaultChunkSize: int := 800
  const DefaultOverlap: int := 150

  /** `max(1, size - overlap)`: how far each window start moves. */
  function Step(size: int, overlap: int): (step: nat)
    ensures step >= 1
    ensures size - overlap >= 1 ==> step == size - overlap
  {
    if size - overlap >= 1 then size - overlap else 1
  }

  /** ceil(n / step): the number of starts 0, step, 2*step, ... below n. */
  function NumChunks(n: nat, step: nat): nat
    requires step >= 1
    decreases n
  {
    if n == 0 then 0 else if n <= step then 1 else 1 + NumChunks(n - step, step)
  }

  /** `" ".join(words[i:i+size])`, with Python's slice semantics for a negative size. */
  function Window(words: seq<string>, i: int, size: int): string {
    Join(PySlice(words, i, i + size), " ")
  }

  /** The windows `win(i)`, `win(i + step)`, ... for every start below n. */
  function ChunksFrom(n: nat, i: nat, step: nat, win: nat -> string): seq<string>
    requires step >= 1
    decreases n - i
  {
    if i >= n then [] else [win(i)] + ChunksFrom(n, i + step, step, win)
  }

  /** The chunks `_chunk(text, size, overlap)` returns. */
  function Chunks(text: string, size: int, overlap: int): seq<string> {
    var words := Words(text);
    ChunksFrom(|words|, 0, Step(size, overlap), Windower(words, size))
  }

  /** The window of `size` words at each start. */
  function Windower(words: seq<string>, size: int): nat -> string {
    i => Window(words, i, size)
  }

  /** `_chunk`: split into words, then slide the window. */
  method Chunk(text: string, size: int := DefaultChunkSize, overlap: int := DefaultOverlap)
    returns (out: seq<string>)
    ensures out == Chunks(text, size, overlap)
  {
    var words := Words(text);
    if words == [] {
      return [];
    }
    out := Slide(|words|, Step(size, overlap), Windower(words, size));
  }

  /** The loop of `_chunk`: one window per start 0, step, 2*step, ... below n, the
      window at i being `win(i)` (for `_chunk`, `" ".join(words[i:i+size])`). */
  method Slide(n: nat, step: nat, win: nat -> string) returns (out: seq<string>)
    requires step >= 1
    ensures out == ChunksFrom(n, 0, step, win)
  {
    ghost var all := ChunksFrom(n, 0, step, win);
    out := [];
    var i: nat := 0;
    assert out + all == all;
    while i < n
      invariant out + ChunksFrom(n, i, step, win) == all
      decreases n - i
    {
      var w := win(i);
      ChunksFromStep(out, all, n, i, step, win);
      out := out + [w];
      i := i + step;
    }
    ChunksFromDone(out, n, i, step, win);
  }

  /** Emitting the window at start i moves it from the windows to come to the output. */
  lemma ChunksFromStep(out: seq<string>, all: seq<string>, n: nat, i: nat, step: nat, win: nat -> string)
    requires step >= 1 && i < n
    requires out + ChunksFrom(n, i, step, win) == all
    ensures (out + [win(i)]) + ChunksFrom(n, i + step, step, win) == all
  {
    var rest := ChunksFrom(n, i + step, step, win);
    assert ChunksFrom(n, i, step, win) == [win(i)] + rest;
    assert (out + [win(i)]) + rest == out + ([win(i)] + rest);
  }

  /** Past the end no window is left. */
  lemma ChunksFromDone(out: seq<string>, n: nat, i: nat, step: nat, win: nat -> string)
    requires step >= 1 && i >= n
    ensures out + ChunksFrom(n, i, step, win) == out
  {
    assert ChunksFrom(n, i, step, win) == [];
    assert out + [] == out;
  }

  /** The closed form: ceil((n - i) / step) windows, the j-th starting at i + j * step. */
  lemma {:induction false} ChunksFromClosedForm(n: nat, i: nat, step: nat, win: nat -> string)
    requires step >= 1
    ensures var r := ChunksFrom(n, i, step, win);
      && |r| == NumChunks(if i < n then n - i else 0, step)
      && forall j :: 0 <= j < |r| ==> r[j] == win(i + j * step)
    decreases n - i
  {
    if i < n {
      var rest := ChunksFrom(n, i + step, step, win);
      ChunksFromClosedForm(n, i + step, step, win);
      var r := ChunksFrom(n, i, step, win);
      assert r == [win(i)] + rest;
      forall j | 0 < j < |r| ensures r[j] == win(i + j * step) {
        assert r[j] == rest[j - 1];
        assert (j - 1 + 1) * step == (j - 1) * step + step;
      }
    }
  }

  /** m windows are still to come exactly when the m-th start lies inside the text. */
  lemma {:induction false} CeilingCharacterisation(n: nat, step: nat, m: nat)
    requires step >= 1
    ensures m < NumChunks(n, step) <==> m * step < n
    decreases n
  {
    if n > step && m > 0 {
      CeilingCharacterisation(n - step, step, m - 1);
      assert (m - 1 + 1) * step == (m - 1) * step + step;
    } else if m > 0 {
      assert m * step >= step;
    }
  }

  // ---------------------------------------------------------------------------
  // Records, snippets and the index

  /** One metadata entry: `{"text", "source", "i"}`. */
  datatype ChunkRecord = ChunkRecord(text: string, source: string, i: nat)

  /** One query result: `{"text", "source", "score"}`. */
  datatype Snippet = Snippet(text: string, source: string, score: real)

  /** A file handed to ingestion: its base name and the text extracted from it. */
  datatype Upload = Upload(name: string, text: string)

  /** What `ingest_files` returns. */
  datatype IngestReport = IngestReport(files: seq<string>, chunks: nat)

  /** What `status` returns; the folder listing is kept as a set, its order being the
      file system's. */
  datatype StatusReport = StatusReport(indexed: bool, chunks: nat, files: set<string>)

  /** An index artifact on disk: absent, present but not loadable, or loaded. */
  datatype Artifact<T> = Missing | Unreadable | Present(value: T)

  /** A stored matrix: every row has the width of the first. */
  predicate Rectangular(rows: seq<Vector>) {
    forall i :: 0 <= i < |rows| ==> |rows[i]| == |rows[0]|
  }

  /** `vecs.size`: rows times columns. */
  function Size(rows: seq<Vector>): nat {
    if rows == [] then 0 else |rows| * |rows[0]|
  }

  /** The records of one file: its chunks, numbered from 0, tagged with its name. */
  function FileRecords(name: string, chunks: seq<string>): (r: seq<ChunkRecord>)
    ensures |r| == |chunks|
  {
    seq(|chunks|, j requires 0 <= j < |chunks| => ChunkRecord(chunks[j], name, j))
  }

  /** How a text is cut into chunks. */
  type Chunker = string -> seq<string>

  /** `_chunk` with its default window, as `ingest_files` calls it. */
  function DefaultChunker(): Chunker {
    t => Chunks(t, DefaultChunkSize, DefaultOverlap)
  }

  /** The records assembled from these uploads, file after file. */
  function Assemble(uploads: seq<Upload>, chunker: Chunker): seq<ChunkRecord> {
    if uploads == [] then []
    else
      var last := uploads[|uploads| - 1];
      Assemble(uploads[..|uploads| - 1], chunker) + FileRecords(last.name, chunker(last.text))
  }

  /** The records an ingestion of these uploads writes to the metadata. */
  function IngestRecords(uploads: seq<Upload>): seq<ChunkRecord> {
    Assemble(uploads, DefaultChunker())
  }

  function Names(uploads: seq<Upload>): (r: seq<string>)
    ensures |r| == |uploads| && forall i :: 0 <= i < |uploads| ==> r[i] == uploads[i].name
  {
    seq(|uploads|, i requires 0 <= i < |uploads| => uploads[i].name)
  }

  function RecordTexts(records: seq<ChunkRecord>): (r: seq<string>)
    ensures |r| == |records| && forall i :: 0 <= i < |records| ==> r[i] == records[i].text
  {
    seq(|records|, i requires 0 <= i < |records| => records[i].text)
  }

  /** The similarity of a stored row to the query vector (cosine similarity in the
      source; abstract here, only its order matters). */
  type Scorer = (Vector, Vector) -> real

  function Sims(rows: seq<Vector>, qv: Vector, score: Scorer): (sims: seq<real>)
    ensures |sims| == |rows| && forall i :: 0 <= i < |rows| ==> sims[i] == score(rows[i], qv)
  {
    seq(|rows|, i requires 0 <= i < |rows| => score(rows[i], qv))
  }

  /** Projection of the top-k rows back to their metadata. A selected row without a
      metadata entry is an index error. */
  function Rank(records: seq<ChunkRecord>, sims: seq<real>, k: int): Result<seq<Snippet>, string> {
    var top := Ranking.TopK(sims, k);
    if forall a :: 0 <= a < |top| ==> top[a] < |records| then
      Ok(seq(|top|, a requires 0 <= a < |top| && top[a] < |records| && top[a] < |sims| =>
        Snippet(records[top[a]].text, records[top[a]].source, sims[top[a]])))
    else Err("list index out of range")
  }

  /** The body of `query` once both artifacts exist: load the metadata, load the
      matrix, stop on an empty matrix, embed the question, score, rank, project. */
  function Retrieve(meta: Artifact<seq<ChunkRecord>>, vecs: Artifact<seq<Vector>>, k: int,
                    embedded: Result<seq<Vector>, string>, score: Scorer): Result<seq<Snippet>, string>
    requires vecs.Present? ==> Rectangular(vecs.value)
  {
    match meta
    case Missing => Err("No such file: meta.json")
    case Unreadable => Err("meta.json: invalid JSON")
    case Present(records) =>
      match vecs
      case Missing => Err("No such file: index.npz")
      case Unreadable => Err("index.npz: cannot load")
      case Present(rows) =>
        if Size(rows) == 0 then Ok([])
        else match embedded
          case Err(e) => Err(e)
          case Ok(vs) =>
            if vs == [] then Err("list index out of range")
            else if |vs[0]| != |rows[0]| then Err("matmul: shapes not aligned")
            else Rank(records, Sims(rows, vs[0], score), k)
  }

  /** The names of a list of uploads. */
  function NameSet(uploads: seq<Upload>): (r: set<string>)
    ensures forall x :: x in r <==> exists i :: 0 <= i < |uploads| && uploads[i].name == x
  {
    if uploads == [] then {}
    else
      var init := uploads[..|uploads| - 1];
      assert forall i :: 0 <= i < |init| ==> init[i] == uploads[i];
      NameSet(init) + {uploads[|uploads| - 1].name}
  }

  /** Taking one more upload appends its name and its records. */
  lemma UploadPrefixStep(uploads: seq<Upload>, n: nat)
    requires n < |uploads|
    ensures var p, u := uploads[..n + 1], uploads[n];
      && Names(p) == Names(uploads[..n]) + [u.name]
      && IngestRecords(p) == IngestRecords(uploads[..n]) + FileRecords(u.name, DefaultChunker()(u.text))
      && NameSet(p) == NameSet(uploads[..n]) + {u.name}
  {
    var p := uploads[..n + 1];
    assert p[..n] == uploads[..n] && p[n] == uploads[n];
  }

  /** The inner loop of `ingest_files`: one record per chunk of the file, numbered from 0. */
  method ChunkFile(u: Upload) returns (recs: seq<ChunkRecord>)
    ensures recs == FileRecords(u.name, DefaultChunker()(u.text))
  {
    var pieces := Chunk(u.text);
    recs := [];
    for idx := 0 to |pieces|
      invariant recs == FileRecords(u.name, pieces[..idx])
    {
      assert pieces[..idx + 1] == pieces[..idx] + [pieces[idx]];
      FileRecordsAppend(u.name, pieces[..idx], pieces[idx]);
      recs := recs + [ChunkRecord(pieces[idx], u.name, idx)];
    }
    assert pieces[..|pieces|] == pieces;
  }

  // ---------------------------------------------------------------------------
  // Context rendering

  const ContextHeader: string := "Knowledge Base snippets (use if relevant; cite [#]):\n\n"

  /** One numbered block: `[n] (src: ..., score=...)` and the snippet text below it. */
  function ContextRow(n: nat, s: Snippet, fmt: real -> string): string {
    "[" + NatToString(n) + "] (src: " + s.source + ", score=" + fmt(s.score) + ")\n" + s.text
  }

  function ContextRows(snips: seq<Snippet>, fmt: real -> string): (rows: seq<string>)
    ensures |rows| == |snips|
    ensures forall i :: 0 <= i < |snips| ==> rows[i] == ContextRow(i + 1, snips[i], fmt)
  {
    seq(|snips|, i requires 0 <= i < |snips| => ContextRow(i + 1, snips[i], fmt))
  }

  /** `build_context`; `fmt` is the `:.3f` formatter. */
  function BuildContext(snips: seq<Snippet>, fmt: real -> string): (r: string)
    ensures r == "" <==> snips == []
  {
    if snips == [] then "" else ContextHeader + Join(ContextRows(snips, fmt), "\n\n")
  }

  // ---------------------------------------------------------------------------
  // The gem's data directory

  class KnowledgeBase {
    /** Names in the `files/` folder. */
    var files: set<string>
    /** `meta.json`. */
    var meta: Artifact<seq<ChunkRecord>>
    /** `index.npz`; a saved array is always rectangular. */
    var vecs: Artifact<seq<Vector>>

    ghost predicate Valid()
      reads this
    {
      vecs.Present? ==> Rectangular(vecs.value)
    }

    /** The directory as found on disk. */
    constructor (files: set<string>, meta: Artifact<seq<ChunkRecord>>, vecs: Artifact<seq<Vector>>)
      requires vecs.Present? ==> Rectangular(vecs.value)
      ensures this.files == files && this.meta == meta && this.vecs == vecs
      ensures Valid()
    {
      this.files := files;
      this.meta := meta;
      this.vecs := vecs;
    }

    /** `has_index`: both artifacts exist (loadable or not). */
    predicate HasIndex()
      reads this
    {
      meta != Missing && vecs != Missing
    }

    /** `status`: the chunk count is read from the metadata only when indexed, and a
        metadata file that does not parse counts as zero. */
    function Status(): (s: StatusReport)
      reads this
      ensures s.indexed <==> meta != Missing && vecs != Missing
      ensures s.chunks != 0 ==> s.indexed && meta.Present? && s.chunks == |meta.value|
      ensures s.indexed && meta.Present? ==> s.chunks == |meta.value|
      ensures s.files == files
    {
      var ok := HasIndex();
      StatusReport(ok, if ok && meta.Present? then |meta.value| else 0, files)
    }

    /** `ingest_files`: copy every file, chunk its text, then either write the empty
        artifacts or embed all chunk texts and write the matrix and the metadata. A
        failing embedding request or a ragged matrix raises after the copies. */
    method Ingest(uploads: seq<Upload>, cfg: Llm.Config, ollama: Llm.OllamaEmbedder, openai: Llm.OpenAIEmbedder)
      returns (r: Result<IngestReport, string>)
      requires Valid()
      modifies this
      ensures Valid()
      ensures files == old(files) + NameSet(uploads)
      ensures var recs := IngestRecords(uploads);
        if recs == [] then
          r == Ok(IngestReport(Names(uploads), 0)) && meta == Present([]) && vecs == Present([])
        else match Llm.EmbedSpec(cfg, RecordTexts(recs), None, ollama, openai)
          case Err(e) => r == Err(e) && meta == old(meta) && vecs == old(vecs)
          case Ok(vs) =>
            if Rectangular(vs) then
              r == Ok(IngestReport(Names(uploads), |recs|)) && meta == Present(recs) && vecs == Present(vs)
            else
              r == Err("inhomogeneous shape") && meta == old(meta) && vecs == old(vecs)
      ensures r.Ok? ==> Status() == StatusReport(true, r.value.chunks, files)
    {
      var chunks, copied := CopyAndChunk(uploads);
      if chunks == [] {
        meta := Present([]);
        vecs := Present([]);
        return Ok(IngestReport(copied, 0));
      }
      var embedded := Llm.Embed(cfg, RecordTexts(chunks), None, ollama, openai);
      if embedded.Err? {
        return Err(embedded.error);
      }
      if !Rectangular(embedded.value) {
        return Err("inhomogeneous shape");
      }
      vecs := Present(embedded.value);
      meta := Present(chunks);
      return Ok(IngestReport(copied, |chunks|));
    }

    /** The loop of `ingest_files`: copy each file into `files/` and collect the
        records of its chunks. */
    method CopyAndChunk(uploads: seq<Upload>) returns (chunks: seq<ChunkRecord>, copied: seq<string>)
      modifies this
      ensures chunks == IngestRecords(uploads) && copied == Names(uploads)
      ensures files == old(files) + NameSet(uploads)
      ensures meta == old(meta) && vecs == old(vecs)
    {
      chunks := [];
      copied := [];
      for n := 0 to |uploads|
        invariant copied == Names(uploads[..n])
        invariant chunks == IngestRecords(uploads[..n])
        invariant files == old(files) + NameSet(uploads[..n])
        invariant meta == old(meta) && vecs == old(vecs)
      {
        var u := uploads[n];
        UploadPrefixStep(uploads, n);
        files := files + {u.name};
        copied := copied + [u.name];
        var recs := ChunkFile(u);
        chunks := chunks + recs;
      }
      assert uploads[..|uploads|] == uploads;
    }

    /** `query(gem_id, q, k)`: no index means no results; otherwise `Retrieve`, with
        the question embedded by `embed([q])`. */
    method Query(q: string, k: int, cfg: Llm.Config, ollama: Llm.OllamaEmbedder, openai: Llm.OpenAIEmbedder,
                 score: Scorer) returns (r: Result<seq<Snippet>, string>)
      requires Valid()
      ensures !HasIndex() ==> r == Ok([])
      ensures HasIndex() ==> r == Retrieve(meta, vecs, k, Llm.EmbedSpec(cfg, [q], None, ollama, openai), score)
    {
      if !HasIndex() {
        return Ok([]);
      }
      if meta.Missing? {
        return Err("No such file: meta.json");
      }
      if meta.Unreadable? {
        return Err("meta.json: invalid JSON");
      }
      var records := meta.value;
      if vecs.Missing? {
        return Err("No such file: index.npz");
      }
      if vecs.Unreadable? {
        return Err("index.npz: cannot load");
      }
      var rows := vecs.value;
      if Size(rows) == 0 {
        return Ok([]);
      }
      var embedded := Llm.Embed(cfg, [q], None, ollama, openai);
      if embedded.Err? {
        return Err(embedded.error);
      }
      if embedded.value == [] {
        return Err("list index out of range");
      }
      var qv := embedded.value[0];
      if |qv| != |rows[0]| {
        return Err("matmul: shapes not aligned");
      }
      var sims := Sims(rows, qv, score);
      r := Rank(records, sims, k);
    }
  }

  // ---------------------------------------------------------------------------
  // Lemmas

  /** `_chunk` returns ceil(n / step) windows. */
  lemma ChunksLength(text: string, size: int, overlap: int)
    ensures |Chunks(text, size, overlap)| == NumChunks(|Words(text)|, Step(size, overlap))
  {
    var words := Words(text);
    ChunksFromClosedForm(|words|, 0, Step(size, overlap), Windower(words, size));
  }

  /** Chunk j is the window starting at word j * step. */
  lemma ChunkAt(text: string, size: int, overlap: int, j: nat)
    requires j < |Chunks(text, size, overlap)|
    ensures Chunks(text, size, overlap)[j] == Window(Words(text), j * Step(size, overlap), size)
  {
    var words, step := Words(text), Step(size, overlap);
    ChunksFromClosedForm(|words|, 0, step, Windower(words, size));
    MulNonNegative(j, step);
    assert Chunks(text, size, overlap)[j] == Windower(words, size)(0 + j * step);
  }

  /** No words, no chunks; otherwise exactly ceil(n / step) of them, so the last start
      is inside the text and one more step would leave it. */
  lemma ChunkCount(text: string, size: int, overlap: int)
    ensures var n, step := |Words(text)|, Step(size, overlap);
      var m := |Chunks(text, size, overlap)|;
      && (m == 0 <==> n == 0)
      && (n > 0 ==> (m - 1) * step < n <= m * step)
  {
    var n, step := |Words(text)|, Step(size, overlap);
    var m := NumChunks(n, step);
    ChunksLength(text, size, overlap);
    CeilingCharacterisation(n, step, 0);
    CeilingCharacterisation(n, step, m);
    if m > 0 {
      CeilingCharacterisation(n, step, m - 1);
    }
  }

  /** With a positive size, chunk j holds exactly words j*step .. min(n, j*step+size),
      single-spaced: never empty, never more than `size` words. */
  lemma ChunkWords(text: string, size: int, overlap: int, j: nat)
    requires size >= 1
    requires j < |Chunks(text, size, overlap)|
    ensures var words, step := Words(text), Step(size, overlap);
      var end := if j * step + size < |words| then j * step + size else |words|;
      && j * step < end
      && Words(Chunks(text, size, overlap)[j]) == words[j * step..end]
      && 1 <= |Words(Chunks(text, size, overlap)[j])| <= size
  {
    var words, step := Words(text), Step(size, overlap);
    ChunksLength(text, size, overlap);
    ChunkAt(text, size, overlap, j);
    CeilingCharacterisation(|words|, step, j);
    MulNonNegative(j, step);
    WindowWords(words, j * step, size);
  }

  /** A window at a start inside the text splits back into its words. */
  lemma WindowWords(words: seq<string>, start: nat, size: int)
    requires size >= 1 && start < |words|
    requires forall i :: 0 <= i < |words| ==> words[i] != [] && NoSpace(words[i])
    ensures var end := if start + size < |words| then start + size else |words|;
      && Words(Window(words, start, size)) == words[start..end]
      && 1 <= |words[start..end]| <= size
  {
    var end := if start + size < |words| then start + size else |words|;
    var part := words[start..end];
    assert PySlice(words, start, start + size) == part;
    assert forall i :: 0 <= i < |part| ==> part[i] == words[start + i];
    WordsOfJoin(part);
  }

  /** With a positive size and no negative overlap, every word lies in some chunk; the
      first chunk starts at word 0 and the last one reaches the final word. */
  lemma ChunkCoverage(text: string, size: int, overlap: int)
    requires size >= 1 && overlap >= 0
    ensures var n, step, m := |Words(text)|, Step(size, overlap), |Chunks(text, size, overlap)|;
      && (forall w :: 0 <= w < n ==> Covered(w, m, step, size))
      && (n > 0 ==> (m - 1) * step + size >= n)
  {
    var n, step := |Words(text)|, Step(size, overlap);
    var m := NumChunks(n, step);
    ChunksLength(text, size, overlap);
    assert step <= size;
    forall w | 0 <= w < n ensures Covered(w, m, step, size) {
      var j := BlockOf(w, step);
      CeilingCharacterisation(n, step, j);
      assert InWindow(w, j, step, size);
    }
    assert |Chunks(text, size, overlap)| == m;
    if n > 0 {
      ChunkCount(text, size, overlap);
      assert n <= m * step;
      assert (m - 1 + 1) * step == (m - 1) * step + step;
    }
  }

  /** Products of naturals are natural, as a fact of its own: inside the chunk lemmas
      the solver's nonlinear arithmetic finds it only at great cost. */
  lemma MulNonNegative(a: nat, b: nat)
    ensures a * b >= 0
  {
  }

  /** The index of the step-long block holding w. */
  lemma BlockOf(w: nat, step: nat) returns (j: nat)
    requires step >= 1
    ensures j * step <= w < j * step + step
  {
    j := w / step;
  }

  /** Word w lies in the window starting at j * step. */
  predicate InWindow(w: nat, j: nat, step: nat, size: int) {
    j * step <= w < j * step + size
  }

  /** Some window among the first m holds word w. */
  predicate Covered(w: nat, m: nat, step: nat, size: int) {
    exists j :: 0 <= j < m && InWindow(w, j, step, size)
  }

  /** Splitting an upload list splits the records: they come file after file. */
  lemma {:induction false} AssembleConcat(a: seq<Upload>, b: seq<Upload>, chunker: Chunker)
    ensures Assemble(a + b, chunker) == Assemble(a, chunker) + Assemble(b, chunker)
    decreases |b|
  {
    if b == [] {
      assert a + b == a;
    } else {
      var b', last := b[..|b| - 1], b[|b| - 1];
      AssembleConcat(a, b', chunker);
      var ab := a + b;
      assert ab[..|ab| - 1] == a + b';
      assert ab[|ab| - 1] == last;
      assert (Assemble(a, chunker) + Assemble(b', chunker)) + FileRecords(last.name, chunker(last.text))
          == Assemble(a, chunker) + (Assemble(b', chunker) + FileRecords(last.name, chunker(last.text)));
    }
  }

  lemma FileRecordsAppend(name: string, chunks: seq<string>, c: string)
    ensures FileRecords(name, chunks + [c]) == FileRecords(name, chunks) + [ChunkRecord(c, name, |chunks|)]
  {
  }

  /** The records of one upload: its chunks in order, `source` its name, `i` counting
      from 0. */
  lemma IngestRecordsOfOne(u: Upload)
    ensures var cs := Chunks(u.text, DefaultChunkSize, DefaultOverlap);
      var recs := IngestRecords([u]);
      |recs| == |cs| && forall j :: 0 <= j < |cs| ==> recs[j] == ChunkRecord(cs[j], u.name, j)
  {
    assert [u][..0] == [];
    assert IngestRecords([u]) == Assemble([], DefaultChunker()) + FileRecords(u.name, DefaultChunker()(u.text));
  }

  /** No records at all exactly when every upload yields no chunk. */
  lemma {:induction false} AssembleEmpty(uploads: seq<Upload>, chunker: Chunker)
    ensures Assemble(uploads, chunker) == [] <==> forall i :: 0 <= i < |uploads| ==> chunker(uploads[i].text) == []
    decreases |uploads|
  {
    if uploads != [] {
      var init := uploads[..|uploads| - 1];
      AssembleEmpty(init, chunker);
      assert forall i :: 0 <= i < |init| ==> init[i] == uploads[i];
    }
  }

  /** An ingestion writes no records exactly when no upload has a word of text. */
  lemma IngestRecordsEmpty(uploads: seq<Upload>)
    ensures IngestRecords(uploads) == [] <==> forall i :: 0 <= i < |uploads| ==> Words(uploads[i].text) == []
  {
    AssembleEmpty(uploads, DefaultChunker());
    forall i | 0 <= i < |uploads|
      ensures DefaultChunker()(uploads[i].text) == [] <==> Words(uploads[i].text) == []
    {
      ChunkCount(uploads[i].text, DefaultChunkSize, DefaultOverlap);
    }
  }

  /** Retrieval for k >= 0: min(k, rows) results when every selected row has metadata,
      best first; result a is the metadata and score of a distinct row, and no row left
      out scores higher than a row taken. */
  lemma RankProperties(records: seq<ChunkRecord>, sims: seq<real>, k: int)
    requires k >= 0
    ensures var top := Ranking.TopK(sims, k);
      && |top| == (if k < |sims| then k else |sims|)
      && Ranking.Distinct(top)
      && (Rank(records, sims, k).Ok? <==> forall a :: 0 <= a < |top| ==> top[a] < |records|)
      && (|sims| <= |records| ==> Rank(records, sims, k).Ok?)
      && (Rank(records, sims, k).Ok? ==>
            var res := Rank(records, sims, k).value;
            && |res| == |top|
            && (forall a :: 0 <= a < |res| ==>
                  top[a] < |sims| && top[a] < |records|
                  && res[a].text == records[top[a]].text && res[a].source == records[top[a]].source
                  && res[a].score == sims[top[a]])
            && (forall a, b :: 0 <= a < b < |res| ==> res[a].score >= res[b].score)
            && (forall a, i :: 0 <= a < |res| && 0 <= i < |sims| && i !in top ==> sims[i] <= res[a].score))
  {
    Ranking.TopKProperties(sims, k);
  }

  /** An empty matrix gives no results without asking for an embedding. */
  lemma RetrieveEmptyMatrix(records: seq<ChunkRecord>, rows: seq<Vector>, k: int,
                            e1: Result<seq<Vector>, string>, e2: Result<seq<Vector>, string>, score: Scorer)
    requires Rectangular(rows) && Size(rows) == 0
    ensures Retrieve(Present(records), Present(rows), k, e1, score) == Ok([])
    ensures Retrieve(Present(records), Present(rows), k, e1, score) == Retrieve(Present(records), Present(rows), k, e2, score)
  {
  }

  /** The context is the header and the first block, then one more block per snippet,
      each after a blank line and numbered by its position from 1. */
  lemma BuildContextOne(s: Snippet, fmt: real -> string)
    ensures BuildContext([s], fmt) == ContextHeader + ContextRow(1, s, fmt)
  {
    assert ContextRows([s], fmt) == [ContextRow(1, s, fmt)];
  }

  lemma BuildContextAppend(snips: seq<Snippet>, s: Snippet, fmt: real -> string)
    requires snips != []
    ensures BuildContext(snips + [s], fmt) == BuildContext(snips, fmt) + "\n\n" + ContextRow(|snips| + 1, s, fmt)
  {
    var rows, row := ContextRows(snips, fmt), ContextRow(|snips| + 1, s, fmt);
    assert ContextRows(snips + [s], fmt) == rows + [row];
    JoinAppend(rows, row, "\n\n");
    var h, j := ContextHeader, Join(rows, "\n\n");
    assert BuildContext(snips + [s], fmt) == h + (j + "\n\n" + row);
    assert BuildContext(snips, fmt) == h + j;
    assert h + (j + "\n\n" + row) == h + j + "\n\n" + row;
  }
}
