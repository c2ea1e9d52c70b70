/** The memory store as it is used: facts rendered into files and parsed out of them. */
module MemoryStores {
  import opened Wrappers
  import opened Text
  import opened Memory
  import opened FactText

  // ---- What comes back ----------------------------------------------------------------------

  lemma {:induction false} BlockClean<J(!new)>(codec: Codec<J>, meta: Meta<J>)
    requires Inverts(codec) && GoodMeta(meta)
    ensures '\r' !in Block(codec, meta)
    decreases |meta|
  {
    hide Inverts;
    if meta != [] {
      LineClean(codec, meta[0]);
      GoodTail(meta);
      BlockClean(codec, meta[1..]);
    }
  }

  lemma GoodTail<J>(meta: Meta<J>)
    requires GoodMeta(meta) && meta != []
    ensures GoodMeta(meta[1..])
  {
    assert forall i | 0 <= i < |meta| - 1 :: meta[1..][i] == meta[i + 1];
  }

  lemma LineClean<J(!new)>(codec: Codec<J>, item: (string, J))
    requires Inverts(codec) && GoodKey(item.0)
    ensures '\r' !in Line(codec, item)
  {
    LineIsGood(codec, item);
    assert IsBreak('\r');
  }

  /** Text mode touches nothing of a rendered fact but its content. */
  lemma RenderTranslates<J(!new)>(codec: Codec<J>, meta: Meta<J>, content: string)
    requires Inverts(codec) && GoodMeta(meta)
    ensures Translate(Render(codec, meta, content)) == Render(codec, meta, Translate(RStrip(content)))
    ensures RStrip(Translate(RStrip(content))) == Translate(RStrip(content))
  {
    var front, body := "---\n" + Block(codec, meta) + "---\n\n", RStrip(content);
    BlockClean(codec, meta);
    TranslatePrefix(front, body + "\n");
    assert Render(codec, meta, content) == front + (body + "\n");
    RStripIs(content);
    if body == "" {
      assert body + "\n" == "\n";
      TranslateSame("\n");
    } else {
      assert IsSpace('\r');
      TranslateBreak(body);
    }
  }

  /** A fact read back from disk: its metadata, and its content with the line breaks translated,
      if and only if no metadata line contains three dashes. */
  lemma ReadsTranslated<J(!new)>(codec: Codec<J>, meta: Meta<J>, content: string)
    requires Inverts(codec) && GoodMeta(meta)
    ensures Parse(codec, Translate(Render(codec, meta, content))) == (meta, Norm(Translate(RStrip(content))))
       <==> !DashedLine(codec, meta)
  {
    hide Render, Parse, Inverts, GoodMeta, DashedLine, Norm;
    RenderTranslates(codec, meta, content);
    RoundTrip(codec, meta, Translate(RStrip(content)));
  }

  lemma {:induction false} NewlinesKeepReturns(s: string)
    ensures '\r' in LStripNewlines(s) <==> '\r' in s
    decreases |s|
  {
    if s != "" && s[0] == '\n' {
      NewlinesKeepReturns(s[1..]);
      assert s == [s[0]] + s[1..];
    }
  }

  lemma NormReturns(content: string)
    ensures '\r' in Norm(content) <==> '\r' in RStrip(content)
  {
    NewlinesKeepReturns(RStrip(content) + "\n");
  }

  /** Through the store: a fact written and read back is the fact if and only if no metadata line
      contains three dashes and no carriage return is left in the content without its trailing
      space, while no other memory type holds the id. */
  lemma StoredFactReadsBack<J(!new)>(
      codec: Codec<J>, d: Disk, kind: Kind, id: string, meta: Meta<J>, content: string, listed: string)
    requires Inverts(codec) && GoodMeta(meta) && Unclaimed(d, kind, id)
    ensures var found := Read(Write(d, kind, id, Render(codec, meta, content), listed), id);
      && found.Some? && found.value.kind == kind
      && (Parse(codec, found.value.text) == (meta, Norm(content)) <==>
            !DashedLine(codec, meta) && '\r' !in RStrip(content))
  {
    hide Parse, Render, Inverts, GoodMeta, DashedLine, RStrip, Norm, Translate;
    var text := Render(codec, meta, content);
    ReadsWhatWasWritten(d, kind, id, text, listed);
    RenderTranslates(codec, meta, content);
    RoundTrip(codec, meta, Translate(RStrip(content)));
    TranslateClean(text);
    ParsedClean(codec, Translate(text));
    NormReturns(content);
    if '\r' !in RStrip(content) {
      TranslateSame(RStrip(content));
      SameRender(codec, meta, content);
    }
  }

  lemma SameRender<J>(codec: Codec<J>, meta: Meta<J>, content: string)
    ensures Norm(RStrip(content)) == Norm(content)
  {
    RStripIs(content);
    assert RStrip(RStrip(content)) == RStrip(content);
  }

  lemma {:induction false} NewlinesSuffix(s: string)
    requires '\r' !in s
    ensures '\r' !in LStripNewlines(s)
  {
    NewlinesKeepReturns(s);
  }

  lemma ParsedClean<J>(codec: Codec<J>, text: string)
    ensures '\r' !in text ==> '\r' !in Parse(codec, text).1
  {
    if '\r' !in text && DashesAt(text, 0) && FindDashes(text[3..]).Some? {
      NewlinesSuffix(text[3..][FindDashes(text[3..]).value + 3..]);
    }
  }

  /** The carriage return of this content comes back as a line break. */
  lemma CarriageReturnIsLost<J(!new)>(
      codec: Codec<J>, d: Disk, kind: Kind, id: string, meta: Meta<J>, listed: string)
    requires Inverts(codec) && GoodMeta(meta) && !DashedLine(codec, meta) && Unclaimed(d, kind, id)
    ensures var found := Read(Write(d, kind, id, Render(codec, meta, "a\rb"), listed), id);
      found.Some? && Parse(codec, found.value.text) == (meta, "a\nb\n") && Norm("a\rb") == "a\rb\n"
  {
    hide Parse, Render, Inverts, GoodMeta, DashedLine;
    ReadsWhatWasWritten(d, kind, id, Render(codec, meta, "a\rb"), listed);
    ReadsTranslated(codec, meta, "a\rb");
    var s := "a\rb";
    assert RStrip(s) == s && s[1..] == "\rb" && s[1..][1..] == "b" && s[1..][1..][1..] == "";
    assert Translate("b") == "b" && Translate("\rb") == "\nb" && Translate(s) == "a\nb";
    assert RStrip("a\nb") == "a\nb";
    assert s + "\n" == "a\rb\n" && "a\nb" + "\n" == "a\nb\n";
    assert Norm(s) == "a\rb\n" && Norm("a\nb") == "a\nb\n";
  }

  // ---- The store ----------------------------------------------------------------------------

  function SetDefault<J>(meta: Meta<J>, key: string, v: J): Meta<J> {
    if exists i :: 0 <= i < |meta| && meta[i].0 == key then meta else meta + [(key, v)]
  }

  /** The caller's metadata with id and times filled in. */
  function Completed<J>(codec: Codec<J>, meta: Meta<J>, id: string, now: string): Meta<J> {
    SetDefault(SetDefault(SetDefault(meta, "id", codec.raw(id)), "created_at", codec.raw(now)), "updated_at", codec.raw(now))
  }

  predicate Has<J(==)>(meta: Meta<J>, key: string, v: J) { exists i :: 0 <= i < |meta| && meta[i] == (key, v) }

  ghost predicate Names<J>(meta: Meta<J>, key: string) { exists i :: 0 <= i < |meta| && meta[i].0 == key }

  lemma SetDefaultTells<J>(meta: Meta<J>, key: string, v: J)
    ensures var r := SetDefault(meta, key, v);
      if Names(meta, key) then r == meta else r == meta + [(key, v)] && Has(r, key, v)
    ensures forall k :: Names(SetDefault(meta, key, v), k) <==> Names(meta, k) || k == key
  {
    var r := SetDefault(meta, key, v);
    if !Names(meta, key) { assert r[|meta|] == (key, v); }
    forall k | Names(meta, k) ensures Names(r, k) {
      var i :| 0 <= i < |meta| && meta[i].0 == k;
      assert r[i].0 == k;
    }
  }

  /** The caller's entries come first and as they were; of the three keys those the caller left out
      follow, the id and the time of the call. */
  lemma CompletedTells<J>(codec: Codec<J>, meta: Meta<J>, id: string, now: string)
    ensures var r := Completed(codec, meta, id, now);
      && meta <= r
      && (forall k :: Names(r, k) <==> Names(meta, k) || k == "id" || k == "created_at" || k == "updated_at")
      && (!Names(meta, "id") ==> Has(r, "id", codec.raw(id)))
      && (!Names(meta, "created_at") ==> Has(r, "created_at", codec.raw(now)))
      && (!Names(meta, "updated_at") ==> Has(r, "updated_at", codec.raw(now)))
      && |r| <= |meta| + 3
  {
    hide SetDefault;
    var m1 := SetDefault(meta, "id", codec.raw(id));
    var m2 := SetDefault(m1, "created_at", codec.raw(now));
    SetDefaultTells(meta, "id", codec.raw(id));
    SetDefaultTells(m1, "created_at", codec.raw(now));
    SetDefaultTells(m2, "updated_at", codec.raw(now));
  }

  lemma {:induction false} DropLast(index: seq<Entry>, e: Entry)
    ensures Dropped(index + [e], e.id) == Dropped(index, e.id)
    decreases |index|
  {
    if index == [] {
      assert [e][1..] == [];
    } else {
      assert (index + [e])[1..] == index[1..] + [e];
      DropLast(index[1..], e);
    }
  }

  lemma DropOwn(index: seq<Entry>, e: Entry)
    ensures Dropped(Dropped(index, e.id) + [e], e.id) == Dropped(index, e.id)
    ensures forall i | 0 <= i < |Dropped(index, e.id)| :: Dropped(index, e.id)[i].id != e.id
  {
    DropLast(Dropped(index, e.id), e);
    DropTwice(index, e.id);
    assert forall i | 0 <= i < |Dropped(index, e.id)| :: Dropped(index, e.id)[i] in Dropped(index, e.id);
  }

  lemma SetDefaultGood<J>(meta: Meta<J>, key: string, v: J)
    requires GoodMeta(meta) && GoodKey(key)
    ensures GoodMeta(SetDefault(meta, key, v))
  {}

  /** Whatever the store fills in, the metadata stays such that it can be read back. */
  lemma CompletedGood<J>(codec: Codec<J>, meta: Meta<J>, id: string, now: string)
    requires GoodMeta(meta)
    ensures GoodMeta(Completed(codec, meta, id, now))
  {
    hide SetDefault, GoodMeta;
    SetDefaultGood(meta, "id", codec.raw(id));
    var m := SetDefault(meta, "id", codec.raw(id));
    SetDefaultGood(m, "created_at", codec.raw(now));
    SetDefaultGood(SetDefault(m, "created_at", codec.raw(now)), "updated_at", codec.raw(now));
  }

  datatype MemoryEntry<J> = MemoryEntry(kind: Kind, meta: Meta<J>, content: string)

  function ReadBack<J>(codec: Codec<J>, d: Disk, id: string): Result<MemoryEntry<J>, Exn> {
    var found := Read(d, id);
    if found.None? then Err(Sovereign("SA_IO_NOT_FOUND", "fact not found"))
    else
      var (meta, content) := Parse(codec, found.value.text);
      Ok(MemoryEntry(found.value.kind, meta, content))
  }

  class MemoryStore<J> {
    var files: map<(Kind, string), string>
    var index: seq<Entry>

    constructor ()
      ensures Contents() == DoAll([])
    {
      files, index := map[], [];
    }

    function Contents(): Disk
      reads this
    {
      Disk(files, index)
    }

    /** `None` is the working memory, which is not a fact. */
    method WriteFact(
        codec: Codec<J>, kind: Option<Kind>, id: string, content: string, metadata: Meta<J>, now: string)
        returns (r: Result<MemoryEntry<J>, Exn>)
      modifies this
      ensures kind.None? ==> Contents() == old(Contents()) && r.Err? && r.error.Sovereign? && r.error.code == "SA_VAL_BAD_TYPE"
      ensures kind.Some? ==>
        var meta := Completed(codec, metadata, id, now);
        && Contents() == Write(old(Contents()), kind.value, id, Render(codec, meta, content), Block(codec, meta))
        && r == Ok(MemoryEntry(kind.value, meta, content))
    {
      if kind.None? {
        return Err(Sovereign("SA_VAL_BAD_TYPE", "write_fact() does not accept WORKING; use set_working()"));
      }
      var meta := Completed(codec, metadata, id, now);
      var text := RenderFact(codec, meta, content);
      files := files[(kind.value, id) := text];
      UpdateIndex(kind.value, id, Block(codec, meta));
      return Ok(MemoryEntry(kind.value, meta, content));
    }

    /** Afterwards the id has exactly one entry, the last; the entries of all other ids are the ones
        there were, in their order. */
    method UpdateIndex(kind: Kind, id: string, meta: string)
      modifies this`index
      ensures Contents() == Indexed(old(Contents()), kind, id, meta)
      ensures |index| > 0 && index[|index| - 1] == Entry(id, kind, PathOf(kind, id), meta)
      ensures forall i | 0 <= i < |index| - 1 :: index[i].id != id
      ensures Dropped(index, id) == Dropped(old(index), id) == index[..|index| - 1]
    {
      DropOwn(index, Entry(id, kind, PathOf(kind, id), meta));
      index := Dropped(index, id) + [Entry(id, kind, PathOf(kind, id), meta)];
    }

    /** The first of the three directories that has the file, translated and parsed. */
    method ReadFact(codec: Codec<J>, id: string) returns (r: Result<MemoryEntry<J>, Exn>)
      ensures r == ReadBack(codec, Contents(), id)
    {
      hide Parse, Translate;
      for k := 0 to |KINDS|
        invariant ReadFrom(files, id, KINDS[k..]) == Read(Contents(), id)
      {
        assert KINDS[k..][1..] == KINDS[k + 1..];
        if (KINDS[k], id) in files {
          var fact := ParseFact(codec, Translate(files[(KINDS[k], id)]));
          return Ok(MemoryEntry(KINDS[k], fact.0, fact.1));
        }
      }
      return Err(Sovereign("SA_IO_NOT_FOUND", "fact not found"));
    }

    method DeleteFact(codec: Codec<J>, id: string)
      modifies this
      ensures Contents() == Delete(old(Contents()), id)
    {
      hide Parse, Translate;
      var entry := ReadFact(codec, id);
      if entry.Err? {
        return;
      }
      files := Unlinked(files, (entry.value.kind, id));
      index := Dropped(index, id);
    }
  }
}
