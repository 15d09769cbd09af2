/** The projection of a category's JSON content into display entries, with the
    validation the category page applies to each entry (src/category.rs). Every
    `panic!`/`expect` of the page becomes an `Err` naming the check that failed. */
module Entries {
  import opened Json

  /** The check that failed, in the order the page performs them. */
  datatype EntryError =
    | NotAnObject
    | MissingTitle
    | TitleNotString
    | LinkNotString
    | SoftTagNotString(key: string)
    | TagsNotArray
    | TagNotString

  datatype Result<+T> = Ok(value: T) | Err(error: EntryError)

  /** One validated entry: its title, optional link, soft tags as (key, value)
      pairs and hard tags. */
  datatype Entry = Entry(
    title: string,
    link: Option<string>,
    softTags: seq<(string, string)>,
    hardTags: seq<string>)

  /** The text a category page shows when its content is not an array. */
  const ErrPlaceholder: string := "#ERR"

  /** The placeholder text a rendered content shows, if any. */
  function PlaceholderOf(r: Rendered): (t: Option<string>)
    ensures t.Some? <==> r.NotArray?
    ensures t.Some? ==> t.value == "#ERR"
  {
    if r.NotArray? then Some(ErrPlaceholder) else None
  }

  /** What a category page shows for its content: the `#ERR` placeholder, an aborted
      render (the page panics at the first bad element), or one entry per element. */
  datatype Rendered =
    | NotArray
    | Failed(index: nat, error: EntryError)
    | Entries(entries: seq<Entry>)

  /** The allow-list of soft-tag keys. */
  const SoftTagKeys: seq<string> := ["author", "year"]

  predicate IsSoftTagKey(k: string)
  {
    k in SoftTagKeys
  }

  /** The keys of an object in iteration order. */
  function Keys(fields: seq<(string, Json)>): (ks: seq<string>)
    ensures |ks| == |fields|
    ensures forall i :: 0 <= i < |fields| ==> ks[i] == fields[i].0
  {
    seq(|fields|, i requires 0 <= i < |fields| => fields[i].0)
  }

  /** JSON strings for a list of texts. */
  function Strs(ts: seq<string>): (js: seq<Json>)
    ensures |js| == |ts|
    ensures forall i :: 0 <= i < |ts| ==> js[i] == Str(ts[i])
  {
    seq(|ts|, i requires 0 <= i < |ts| => Str(ts[i]))
  }

  // ---------------------------------------------------------------------------
  // Field extraction

  /** The required `title`. */
  function Title(fields: seq<(string, Json)>): (r: Result<string>)
    ensures r == Err(MissingTitle) <==> Get(fields, "title").None?
    ensures r.Ok? <==> Get(fields, "title").Some? && Get(fields, "title").value.Str?
    ensures r.Ok? ==> Get(fields, "title") == Some(Str(r.value))
    ensures r.Err? ==> r.error in {MissingTitle, TitleNotString}
  {
    match Get(fields, "title")
    case None => Err(MissingTitle)
    case Some(Str(s)) => Ok(s)
    case Some(_) => Err(TitleNotString)
  }

  /** The optional `link`: absent gives no link, a string gives that link. */
  function Link(fields: seq<(string, Json)>): (r: Result<Option<string>>)
    ensures r.Ok? <==> Get(fields, "link").None? || Get(fields, "link").value.Str?
    ensures r.Ok? ==> (r.value.None? <==> Get(fields, "link").None?)
    ensures r.Ok? && r.value.Some? ==> Get(fields, "link") == Some(Str(r.value.value))
    ensures r.Err? ==> r.error == LinkNotString
  {
    match Get(fields, "link")
    case None => Ok(None)
    case Some(Str(s)) => Ok(Some(s))
    case Some(_) => Err(LinkNotString)
  }

  /** The soft tags met while visiting `keys` in order, looking each allow-listed key
      up in `fields`; the value must be a string. */
  function SoftTagsOf(keys: seq<string>, fields: seq<(string, Json)>): (r: Result<seq<(string, string)>>)
    ensures r.Err? ==> r.error.SoftTagNotString? && IsSoftTagKey(r.error.key)
    ensures r.Ok? ==> forall j :: 0 <= j < |r.value| ==>
      IsSoftTagKey(r.value[j].0) && Get(fields, r.value[j].0) == Some(Str(r.value[j].1))
    decreases |keys|
  {
    if |keys| == 0 then Ok([])
    else
      match SoftTagsOf(keys[..|keys| - 1], fields)
      case Err(e) => Err(e)
      case Ok(ts) =>
        var k := keys[|keys| - 1];
        if !IsSoftTagKey(k) then Ok(ts)
        else
          match Get(fields, k)
          case Some(Str(s)) => Ok(ts + [(k, s)])
          case _ => Err(SoftTagNotString(k))
  }

  /** Once a prefix of the keys has failed, visiting more keys reports the same failure. */
  lemma {:induction false} SoftTagsErrSticky(keys: seq<string>, fields: seq<(string, Json)>, n: nat)
    requires n <= |keys|
    requires SoftTagsOf(keys[..n], fields).Err?
    ensures SoftTagsOf(keys, fields) == SoftTagsOf(keys[..n], fields)
  {
    if n < |keys| {
      var init := keys[..|keys| - 1];
      assert init[..n] == keys[..n];
      SoftTagsErrSticky(init, fields, n);
    } else {
      assert keys[..n] == keys;
    }
  }

  /** The soft tags of an object: its keys visited in iteration order. */
  function SoftTags(fields: seq<(string, Json)>): Result<seq<(string, string)>>
  {
    SoftTagsOf(Keys(fields), fields)
  }

  /** Every element of a `tags` array must be a string; the tags keep the array's order. */
  function TagStrings(elems: seq<Json>): (r: Result<seq<string>>)
    ensures r.Ok? <==> forall i :: 0 <= i < |elems| ==> elems[i].Str?
    ensures r.Ok? ==> elems == Strs(r.value)
    ensures r.Err? ==> r.error == TagNotString
  {
    if |elems| == 0 then Ok([])
    else if !elems[0].Str? then Err(TagNotString)
    else
      match TagStrings(elems[1..])
      case Err(e) => Err(e)
      case Ok(ts) => Ok([elems[0].s] + ts)
  }

  /** The hard tags: none without `tags`, otherwise the strings of the `tags` array. */
  function HardTags(fields: seq<(string, Json)>): (r: Result<seq<string>>)
    ensures Get(fields, "tags").None? ==> r == Ok([])
    ensures Get(fields, "tags").Some? && r.Ok? ==> Get(fields, "tags") == Some(Arr(Strs(r.value)))
    ensures r.Err? <==> (Get(fields, "tags").Some? &&
      (!Get(fields, "tags").value.Arr? ||
       exists i :: 0 <= i < |Get(fields, "tags").value.elems| && !Get(fields, "tags").value.elems[i].Str?))
    ensures r == Err(TagsNotArray) <==> Get(fields, "tags").Some? && !Get(fields, "tags").value.Arr?
    ensures r == Err(TagNotString) <==> (Get(fields, "tags").Some? && Get(fields, "tags").value.Arr? &&
      exists i :: 0 <= i < |Get(fields, "tags").value.elems| && !Get(fields, "tags").value.elems[i].Str?)
  {
    match Get(fields, "tags")
    case None => Ok([])
    case Some(Arr(elems)) => TagStrings(elems)
    case Some(_) => Err(TagsNotArray)
  }

  // ---------------------------------------------------------------------------
  // One entry and the whole page

  /** The entry an element of the content array projects to, or the first check it fails. */
  function ProjectEntry(item: Json): (r: Result<Entry>)
    ensures r == Err(NotAnObject) <==> !item.Obj?
    ensures r == Err(MissingTitle) <==> item.Obj? && Get(item.fields, "title").None?
    ensures r == Err(TitleNotString) <==>
      item.Obj? && Get(item.fields, "title").Some? && !Get(item.fields, "title").value.Str?
    ensures r == Err(LinkNotString) <==> item.Obj? && Title(item.fields).Ok? && Link(item.fields).Err?
    ensures r.Err? && r.error.SoftTagNotString? <==>
      item.Obj? && Title(item.fields).Ok? && Link(item.fields).Ok? && SoftTags(item.fields).Err?
    ensures r.Err? && r.error in {TagsNotArray, TagNotString} <==>
      item.Obj? && Title(item.fields).Ok? && Link(item.fields).Ok? && SoftTags(item.fields).Ok? &&
      HardTags(item.fields).Err?
    ensures r.Ok? ==> item.Obj? && Get(item.fields, "title") == Some(Str(r.value.title))
    ensures r.Ok? ==> (r.value.link.None? <==> Get(item.fields, "link").None?)
    ensures r.Ok? && r.value.link.Some? ==> Get(item.fields, "link") == Some(Str(r.value.link.value))
    ensures r.Ok? ==> SoftTags(item.fields) == Ok(r.value.softTags)
    ensures r.Ok? && Get(item.fields, "tags").None? ==> r.value.hardTags == []
    ensures r.Ok? && Get(item.fields, "tags").Some? ==>
      Get(item.fields, "tags") == Some(Arr(Strs(r.value.hardTags)))
  {
    if !item.Obj? then Err(NotAnObject)
    else
      var fields := item.fields;
      match Title(fields)
      case Err(e) => Err(e)
      case Ok(title) =>
        match Link(fields)
        case Err(e) => Err(e)
        case Ok(link) =>
          match SoftTags(fields)
          case Err(e) => Err(e)
          case Ok(soft) =>
            match HardTags(fields)
            case Err(e) => Err(e)
            case Ok(hard) => Ok(Entry(title, link, soft, hard))
  }

  /** The entries of an array of elements, stopping at the first element that fails. */
  function ProjectAll(items: seq<Json>): (r: Rendered)
    ensures !r.NotArray?
    ensures r.Entries? ==> (|r.entries| == |items| &&
      forall i :: 0 <= i < |items| ==> ProjectEntry(items[i]) == Ok(r.entries[i]))
    ensures r.Failed? ==> (r.index < |items| && ProjectEntry(items[r.index]) == Err(r.error) &&
      forall i :: 0 <= i < r.index ==> ProjectEntry(items[i]).Ok?)
  {
    if |items| == 0 then Entries([])
    else
      match ProjectEntry(items[0])
      case Err(e) => Failed(0, e)
      case Ok(e) =>
        var rest := ProjectAll(items[1..]);
        assert forall i :: 1 <= i < |items| ==> items[i] == items[1..][i - 1];
        if rest.Failed? then Failed(rest.index + 1, rest.error)
        else Entries([e] + rest.entries)
  }

  /** What the page shows for a category's content. */
  function RenderEntries(content: Json): (r: Rendered)
    ensures r.NotArray? <==> !content.Arr?
    ensures r.Entries? <==>
      content.Arr? && forall i :: 0 <= i < |content.elems| ==> ProjectEntry(content.elems[i]).Ok?
    ensures r.Entries? ==> (|r.entries| == |content.elems| &&
      forall i :: 0 <= i < |content.elems| ==> ProjectEntry(content.elems[i]) == Ok(r.entries[i]))
    ensures r.Failed? ==> (content.Arr? && r.index < |content.elems| &&
      ProjectEntry(content.elems[r.index]) == Err(r.error) &&
      forall i :: 0 <= i < r.index ==> ProjectEntry(content.elems[i]).Ok?)
  {
    if content.Arr? then ProjectAll(content.elems) else NotArray
  }

  /** The soft tags as the page collects them: a loop over the object's keys that
      skips keys outside the allow-list and appends (key, value) for the others. */
  method CollectSoftTags(fields: seq<(string, Json)>) returns (r: Result<seq<(string, string)>>)
    ensures r == SoftTags(fields)
  {
    var keys := Keys(fields);
    var softTags: seq<(string, string)> := [];
    for i := 0 to |keys|
      invariant SoftTagsOf(keys[..i], fields) == Ok(softTags)
    {
      assert keys[..i + 1][..i] == keys[..i];
      var key := keys[i];
      if !IsSoftTagKey(key) {
        continue;
      }
      var val := Get(fields, key);
      if !(val.Some? && val.value.Str?) {
        SoftTagsErrSticky(keys, fields, i + 1);
        return Err(SoftTagNotString(key));
      }
      softTags := softTags + [(key, val.value.s)];
    }
    assert keys[..|keys|] == keys;
    r := Ok(softTags);
  }

  /** The page's entry projection as the source performs it, checks in order. */
  method ViewEntry(item: Json) returns (r: Result<Entry>)
    ensures r == ProjectEntry(item)
  {
    if !item.Obj? {
      return Err(NotAnObject);
    }
    var fields := item.fields;
    var title := Title(fields);
    if title.Err? {
      return Err(title.error);
    }
    var link := Link(fields);
    if link.Err? {
      return Err(link.error);
    }
    var soft := CollectSoftTags(fields);
    if soft.Err? {
      return Err(soft.error);
    }
    var hard := HardTags(fields);
    if hard.Err? {
      return Err(hard.error);
    }
    r := Ok(Entry(title.value, link.value, soft.value, hard.value));
  }

  // ---------------------------------------------------------------------------
  // What the projection means, stated declaratively

  /** Reference definition of the soft tags: the pairs of `fields`, in order, whose
      key is allow-listed and whose value is a string. */
  function SoftTagPairs(fields: seq<(string, Json)>): seq<(string, string)>
  {
    if |fields| == 0 then []
    else
      var last := fields[|fields| - 1];
      SoftTagPairs(fields[..|fields| - 1]) +
        (if IsSoftTagKey(last.0) && last.1.Str? then [(last.0, last.1.s)] else [])
  }

  /** Every allow-listed key among the first `n` pairs holds a string. */
  predicate SoftTagsAreStrings(fields: seq<(string, Json)>, n: nat)
  {
    forall i :: 0 <= i < n && i < |fields| && IsSoftTagKey(fields[i].0) ==> fields[i].1.Str?
  }

  /** Visiting the first `n` keys of an object with distinct keys succeeds exactly when
      each allow-listed key among them holds a string, and then yields those pairs. */
  lemma {:induction false} SoftTagsPrefix(fields: seq<(string, Json)>, n: nat)
    requires DistinctKeys(fields)
    requires n <= |fields|
    ensures SoftTagsOf(Keys(fields)[..n], fields).Ok? <==> SoftTagsAreStrings(fields, n)
    ensures SoftTagsOf(Keys(fields)[..n], fields).Ok? ==>
      SoftTagsOf(Keys(fields)[..n], fields).value == SoftTagPairs(fields[..n])
  {
    if n > 0 {
      var keys := Keys(fields)[..n];
      assert keys[..n - 1] == Keys(fields)[..n - 1];
      assert keys[n - 1] == fields[n - 1].0;
      assert fields[..n][..n - 1] == fields[..n - 1];
      assert fields[..n][n - 1] == fields[n - 1];
      SoftTagsPrefix(fields, n - 1);
      GetAt(fields, n - 1);
      var prev := SoftTagsOf(Keys(fields)[..n - 1], fields);
      var last := fields[n - 1];
      assert SoftTagsAreStrings(fields, n) <==>
        SoftTagsAreStrings(fields, n - 1) && (IsSoftTagKey(last.0) ==> last.1.Str?);
      assert SoftTagsOf(keys, fields) ==
        match prev
        case Err(e) => Err(e)
        case Ok(ts) =>
          if !IsSoftTagKey(last.0) then Ok(ts)
          else if last.1.Str? then Ok(ts + [(last.0, last.1.s)])
          else Err(SoftTagNotString(last.0));
    }
  }

  /** The soft tags of an object with distinct keys are exactly its allow-listed pairs. */
  lemma {:induction false} SoftTagsExact(fields: seq<(string, Json)>)
    requires DistinctKeys(fields)
    ensures SoftTags(fields).Ok? <==> SoftTagsAreStrings(fields, |fields|)
    ensures SoftTags(fields).Ok? ==> SoftTags(fields).value == SoftTagPairs(fields)
  {
    var n := |fields|;
    assert Keys(fields)[..n] == Keys(fields);
    assert fields[..n] == fields;
    SoftTagsPrefix(fields, n);
  }

  /** The shapes of entry the page accepts. */
  predicate WellFormedEntry(item: Json)
  {
    && item.Obj?
    && Get(item.fields, "title").Some? && Get(item.fields, "title").value.Str?
    && (Get(item.fields, "link").Some? ==> Get(item.fields, "link").value.Str?)
    && SoftTagsAreStrings(item.fields, |item.fields|)
    && (Get(item.fields, "tags").Some? ==>
          Get(item.fields, "tags").value.Arr? &&
          forall i :: 0 <= i < |Get(item.fields, "tags").value.elems| ==>
            Get(item.fields, "tags").value.elems[i].Str?)
  }

  /** An element projects to an entry exactly when it is well formed, and then the
      entry's soft tags are its allow-listed pairs in iteration order. */
  lemma {:induction false} ProjectEntryAccepts(item: Json)
    requires item.Obj? ==> DistinctKeys(item.fields)
    ensures ProjectEntry(item).Ok? <==> WellFormedEntry(item)
    ensures ProjectEntry(item).Ok? ==> ProjectEntry(item).value.softTags == SoftTagPairs(item.fields)
  {
    if item.Obj? {
      SoftTagsExact(item.fields);
    }
  }

  /** The keys the page reads from an entry. */
  predicate IsReadKey(k: string)
  {
    k == "title" || k == "link" || k == "tags" || IsSoftTagKey(k)
  }

  /** Dropping a key that is not allow-listed from a list of visited keys changes nothing. */
  lemma {:induction false} SoftTagsSkipKey(keys: seq<string>, at: nat, k: string, fields: seq<(string, Json)>)
    requires at <= |keys|
    requires !IsSoftTagKey(k)
    ensures SoftTagsOf(keys[..at] + [k] + keys[at..], fields) == SoftTagsOf(keys, fields)
  {
    var ks := keys[..at] + [k] + keys[at..];
    if at == |keys| {
      assert ks[..|ks| - 1] == keys;
    } else {
      var init := keys[..|keys| - 1];
      assert ks[..|ks| - 1] == init[..at] + [k] + init[at..];
      assert ks[|ks| - 1] == keys[|keys| - 1];
      SoftTagsSkipKey(init, at, k, fields);
    }
  }

  /** Looking keys up in two objects that agree on every allow-listed key gives the same tags. */
  lemma {:induction false} SoftTagsSameLookups(keys: seq<string>, f: seq<(string, Json)>, g: seq<(string, Json)>)
    requires forall k :: IsSoftTagKey(k) ==> Get(f, k) == Get(g, k)
    ensures SoftTagsOf(keys, f) == SoftTagsOf(keys, g)
  {
    if |keys| > 0 {
      SoftTagsSameLookups(keys[..|keys| - 1], f, g);
    }
  }

  /** A key the page does not read (`publisher`, say) adds no tag and no failure,
      wherever it sits in the object. */
  lemma {:induction false} UnknownKeyIgnored(fields: seq<(string, Json)>, at: nat, k: string, v: Json)
    requires at <= |fields|
    requires !IsReadKey(k)
    ensures ProjectEntry(Obj(fields[..at] + [(k, v)] + fields[at..])) == ProjectEntry(Obj(fields))
  {
    var g := fields[..at] + [(k, v)] + fields[at..];
    forall key | IsReadKey(key) ensures Get(g, key) == Get(fields, key) {
      GetInsert(fields, at, k, v, key);
    }
    assert Keys(g) == Keys(fields)[..at] + [k] + Keys(fields)[at..];
    SoftTagsSkipKey(Keys(fields), at, k, g);
    SoftTagsSameLookups(Keys(fields), g, fields);
    SamePartsSameEntry(g, fields);
  }

  /** Two objects that agree on every key the page reads project alike. */
  lemma {:induction false} SamePartsSameEntry(f: seq<(string, Json)>, g: seq<(string, Json)>)
    requires forall key :: IsReadKey(key) ==> Get(f, key) == Get(g, key)
    requires SoftTags(f) == SoftTags(g)
    ensures ProjectEntry(Obj(f)) == ProjectEntry(Obj(g))
  {
  }

  // ---------------------------------------------------------------------------
  // The data an entry is displayed from

  /** The entry's heading: the bare title, or the title inside an anchor. */
  datatype Heading = Plain(text: string) | Anchor(href: string, text: string)

  /** A soft-tag chip shows `key: value`; a hard-tag chip shows `#tag`. */
  datatype EntryView = EntryView(heading: Heading, softChips: seq<string>, hardChips: seq<string>)

  function SoftChip(tag: (string, string)): string
  {
    tag.0 + ": " + tag.1
  }

  function HardChip(tag: string): string
  {
    "#" + tag
  }

  /** The chips shown for a list of hard tags, one per tag in order. */
  function HardChips(tags: seq<string>): (cs: seq<string>)
  {
    if |tags| == 0 then [] else [HardChip(tags[0])] + HardChips(tags[1..])
  }

  /** Reads the tags back off their chips. */
  function TagsOfChips(chips: seq<string>): seq<string>
  {
    if |chips| == 0 then []
    else
      var c := chips[0];
      [if |c| > 0 && c[0] == '#' then c[1..] else c] + TagsOfChips(chips[1..])
  }

  /** Every hard-tag chip carries the `#` prefix and the tag behind it is recovered in order. */
  lemma {:induction false} HardChipsRoundTrip(tags: seq<string>)
    ensures |HardChips(tags)| == |tags|
    ensures forall i :: 0 <= i < |tags| ==> HardChips(tags)[i] == "#" + tags[i]
    ensures TagsOfChips(HardChips(tags)) == tags
  {
    if |tags| > 0 {
      HardChipsRoundTrip(tags[1..]);
      assert HardChip(tags[0])[1..] == tags[0];
    }
  }

  /** The display data of a validated entry. */
  function ViewOf(e: Entry): (v: EntryView)
    ensures v.heading.text == e.title
    ensures v.heading.Anchor? <==> e.link.Some?
    ensures v.heading.Anchor? ==> v.heading.href == e.link.value
    ensures |v.softChips| == |e.softTags|
    ensures forall i :: 0 <= i < |e.softTags| ==> v.softChips[i] == e.softTags[i].0 + ": " + e.softTags[i].1
    ensures |v.hardChips| == |e.hardTags|
    ensures forall i :: 0 <= i < |e.hardTags| ==> v.hardChips[i] == "#" + e.hardTags[i]
    ensures TagsOfChips(v.hardChips) == e.hardTags
  {
    HardChipsRoundTrip(e.hardTags);
    EntryView(
      match e.link
      case None => Plain(e.title)
      case Some(href) => Anchor(href, e.title),
      seq(|e.softTags|, i requires 0 <= i < |e.softTags| => SoftChip(e.softTags[i])),
      HardChips(e.hardTags))
  }
}

/** The category page component: it looks its content up by the decoded route name
    and shows the entries, or redirects to the not-found page. */
module CategoryPage {
  import opened Json
  import opened Entries

  /** What the page shows: a redirect to the not-found route, or the name as heading
      above the rendered content. */
  datatype Page = RedirectNotFound | CategoryView(heading: string, body: Rendered)

  /** The content stored under a category name, if any. */
  function Lookup(data: map<string, Json>, name: string): (r: Option<Json>)
    ensures r.Some? <==> name in data
    ensures r.Some? ==> r.value == data[name]
  {
    if name in data then Some(data[name]) else None
  }

  /** The page shown for a name: a name missing from the data redirects to not-found,
      a present one shows its content's entries under the name. */
  function PageOf(data: map<string, Json>, name: string): (p: Page)
    ensures p.RedirectNotFound? <==> name !in data
    ensures p.CategoryView? ==> p.heading == name && p.body == RenderEntries(data[name])
    ensures p.CategoryView? && !data[name].Arr? ==> p.body == NotArray
  {
    match Lookup(data, name)
    case None => RedirectNotFound
    case Some(content) => CategoryView(name, RenderEntries(content))
  }

  class Category {
    var name: string
    var data: map<string, Json>
    var content: Option<Json>

    /** The content is always the data's entry for the current name. */
    ghost predicate Valid()
      reads this
    {
      content == Lookup(data, name)
    }

    /** `decodeName` stands for the percent-decoding of the route parameter. */
    constructor (propName: string, decodeName: string -> string, allData: map<string, Json>)
      ensures Valid()
      ensures name == decodeName(propName) && data == allData
    {
      name := decodeName(propName);
      data := allData;
      content := Lookup(allData, decodeName(propName));
    }

    /** A new route parameter: recompute name and content, keep the data, re-render. */
    method Changed(propName: string, decodeName: string -> string) returns (rerender: bool)
      modifies this`name, this`content
      ensures Valid()
      ensures name == decodeName(propName) && data == old(data)
      ensures rerender
    {
      name := decodeName(propName);
      content := Lookup(data, name);
      rerender := true;
    }

    function View(): (p: Page)
      reads this
      ensures p.RedirectNotFound? <==> content.None?
      ensures p.CategoryView? ==> p.heading == name && p.body == RenderEntries(content.value)
      ensures Valid() ==> p == PageOf(data, name)
    {
      match content
      case None => RedirectNotFound
      case Some(c) => CategoryView(name, RenderEntries(c))
    }
  }
}
