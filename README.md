# faves: category entries and the site shell, in Dafny

This project models the logic of a small client-side personal website written in
Rust with Yew. Each category of favourite things is a bundled JSON document. The
category page turns that document into a list of display entries: a required
title, an optional link, "soft tags" drawn from an allow-list of keys (`author`,
`year`) and "hard tags" from an optional `tags` array of strings. Any other shape
makes the page panic. Content that is not an array shows the `#ERR` placeholder.
The top-level shell keeps the categories as a name-sorted list for the navigation
menu and toggles the menu open and closed.

Files:

- `json.dfy` (module `Json`): the JSON value the documents are parsed into, and key
  lookup in an object (`map.get`).
- `category.dfy` (modules `Entries` and `CategoryPage`): the projection and
  validation of entries (`view_entries`, `view_entry`), the data each entry is shown
  from, and the `Category` component with its lookup by decoded name.
- `string_order.dfy` (module `StringOrder`): Rust's ordering of `String`s, which
  the shell sorts by.
- `shell.dfy` (module `Shell`): `HtmlModel` with `create` (collect the data map,
  sort by name, menu closed) and `update` (`ToggleNavbar`), and the navigation menu.

Modelling choices:

- Each `panic!`/`expect` of `view_entry` is an `Err` that names the failed check.
  The checks run in the source's order: object, title, link, soft tags, `tags`.
  A failing element aborts the whole page. `Failed(index, error)` records the first
  failing element, as the panic would.
- A JSON object is the sequence of its (key, value) pairs in the order iterating
  its keys yields them. Parsed objects have distinct keys (`DistinctKeys`). The
  soft-tag loop looks each key up again with `Get`, as the source does with
  `map.get(key)`. Its result equals the allow-listed pairs in iteration order only
  for distinct keys, which `SoftTagsExact` proves.
- The soft-tag loop of `view_entry` is the method `Entries.CollectSoftTags`. It is
  proved equal to the specification function `Entries.SoftTags`. The method
  `Entries.ViewEntry` runs the checks in order around it and is proved equal to
  `Entries.ProjectEntry`. The page-level functions use that specification.
- `Category` and `HtmlModel` are classes because the source updates their fields
  in place. `create` collects the hash map's pairs in an order the model leaves
  open (`CollectPairs` picks any remaining pair) and then sorts an array in place by
  insertion sort (`SortByName`). `SortedListingUnique` shows that the result does
  not depend on the hash map's iteration order.
- The model follows this revision of the code:
  - the soft-tag allow-list is `author` and `year` only;
  - soft tags come out in the object's key-iteration order;
  - linked titles carry no index prefix;
  - one bad entry aborts the whole page instead of being skipped;
  - this revision of `main.rs` declares the routes Home, Secure and NotFound, and
    every category link of the menu targets `Route::Secure`.

## Model

| member | source | states |
|---|---|---|
| `Json.Get` | src/category.rs:85 | looking a key up finds nothing exactly when no pair has that key, and otherwise yields the value of a pair with that key |
| `Json.GetAt` | src/category.rs:114-115 | in an object with distinct keys, looking up an iterated key yields that pair's own value |
| `Json.GetInsert` | src/category.rs:84-127 | adding a pair under another key does not change a lookup |
| `Entries.Title` | src/category.rs:84-88 | a missing `title` is `MissingTitle`, a non-string one `TitleNotString`, otherwise the title is that string |
| `Entries.Link` | src/category.rs:89-90 | no `link` gives no link, a string gives exactly that link, anything else is `LinkNotString` |
| `Entries.SoftTagsOf` | src/category.rs:106-120 | every soft tag has an allow-listed key and is the string stored under it; a failure names an allow-listed key |
| `Entries.SoftTagsErrSticky` | src/category.rs:114-117 | once an allow-listed key fails, the whole soft-tag scan fails with that key |
| `Entries.SoftTagsPrefix` | src/category.rs:109-120 | after n keys the scan succeeds iff every allow-listed key among them holds a string, and then holds exactly those pairs in order |
| `Entries.SoftTagsExact` | src/category.rs:106-120 | the soft tags succeed iff every allow-listed key holds a string, and are then exactly the allow-listed (key, value) pairs in key-iteration order |
| `Entries.TagStrings` | src/category.rs:123-126 | a tags array is accepted iff every element is a string, and then the array is exactly those strings in order |
| `Entries.HardTags` | src/category.rs:122-127 | no `tags` gives no hard tags; a non-array `tags` is exactly `TagsNotArray`, an array with a non-string element exactly `TagNotString`; otherwise the tags are the array's strings in order |
| `Entries.ProjectEntry` | src/category.rs:78-127 | a non-object is `NotAnObject`; title errors occur exactly for a missing or non-string title; after a good title, a bad link is exactly `LinkNotString`, then a bad soft tag its `SoftTagNotString`, then a bad `tags` its tags error; an accepted entry carries the stored title, the link exactly when one is present, the soft tags and the `tags` array's strings |
| `Entries.CollectSoftTags` | src/category.rs:106-120 | the loop over the object's keys, skipping keys outside the allow-list and appending (key, string value) for the others, returns exactly the specified soft tags or the failing key |
| `Entries.ViewEntry` | src/category.rs:78-127 | the source's projection, checks in the source's order, returns exactly the specified entry or error |
| `Entries.ProjectEntryAccepts` | src/category.rs:78-127 | an element is accepted iff it is an object with a string title, a string link if any, string values for allow-listed keys and an all-string `tags` array if any; its soft tags are then its allow-listed pairs |
| `Entries.UnknownKeyIgnored` | src/category.rs:106-112 | a key the page does not read, wherever it sits in the object, adds no tag and no failure |
| `Entries.SoftTagsSkipKey` | src/category.rs:109-112 | a key outside the allow-list is skipped by the soft-tag scan |
| `Entries.SoftTagsSameLookups` | src/category.rs:114-117 | the scan depends only on the values of allow-listed keys |
| `Entries.SamePartsSameEntry` | src/category.rs:84-127 | two objects that agree on `title`, `link`, `tags` and the allow-listed keys, and have the same soft tags, give the same entry |
| `Entries.ProjectAll` | src/category.rs:72-74 | an array renders one entry per element in order, or fails at the first element whose projection fails, every earlier one being accepted |
| `Entries.RenderEntries` | src/category.rs:65-76 | content that is not an array gives the `#ERR` placeholder; an array gives all its entries in order iff every element is accepted, and otherwise aborts at the first bad element |
| `Entries.HardChipsRoundTrip` | src/category.rs:149-153 | one hard-tag chip per tag, each the tag with a `#` prefix, and stripping the prefix gives the tags back in order |
| `Entries.ViewOf` | src/category.rs:92-159 | the heading shows the title, and is an anchor exactly when the entry has a link, with that link as target; one `key: value` chip per soft tag; one chip per hard tag, each the tag with a `#` prefix, and they read back to the tags |
| `Entries.PlaceholderOf` | src/category.rs:69-71 | the `#ERR` placeholder is shown exactly when the content is not an array |
| `CategoryPage.Lookup` | src/category.rs:28 | a name has content exactly when the data map holds it, and the content is that entry |
| `CategoryPage.PageOf` | src/category.rs:43-56 | a name missing from the data redirects to NotFound; a present name shows its content's entries under the name, `#ERR` for non-array content |
| `CategoryPage.Category.constructor` | src/category.rs:25-35 | the name is the decoded route parameter, the data is the given map and the content is the map's entry for the name |
| `CategoryPage.Category.Changed` | src/category.rs:37-41 | a new route parameter recomputes name and content, leaves the data untouched and asks for a re-render |
| `CategoryPage.Category.View` | src/category.rs:43-57 | the page redirects exactly when there is no content, and equals the page for the current name in the data |
| `StringOrder.LeReflexive` | src/main.rs:57 | every name is ordered before or equal to itself |
| `StringOrder.LeTotal` | src/main.rs:57 | any two names are comparable |
| `StringOrder.LeTransitive` | src/main.rs:57 | the name order is transitive |
| `StringOrder.LeAntisymmetric` | src/main.rs:57 | names ordered both ways are equal |
| `Shell.CollectPairs` | src/main.rs:52-56 | collecting the map gives exactly its (name, content) pairs, each once, in some order |
| `Shell.Swap` | src/main.rs:57 | exchanges two elements, leaves the others in place and keeps the multiset of elements |
| `Shell.InsertedSorted` | src/main.rs:57 | once the moved pair is no larger than its right part and no smaller than its left neighbour, the first i + 1 pairs are sorted |
| `Shell.InsertAt` | src/main.rs:57 | moving the pair at i down into a sorted prefix leaves the first i + 1 pairs sorted and the elements permuted |
| `Shell.SortByName` | src/main.rs:57 | the array ends sorted ascending by name and is a permutation of what it held |
| `Shell.HtmlModel.constructor` | src/main.rs:51-62 | after startup the menu is closed and the list holds exactly the data map's pairs, each once, sorted by name |
| `Shell.HtmlModel.Update` | src/main.rs:64-71 | `ToggleNavbar` negates the menu flag, leaves the list unchanged and asks for a re-render |
| `Shell.ToggleTwice` | src/main.rs:66-67 | toggling twice restores the menu flag and leaves the list unchanged |
| `Shell.ListedPairsBelong` | src/main.rs:52-56 | every element of the list is a (name, content) pair of the data map |
| `Shell.ListedNamesDistinct` | src/main.rs:52-56 | the list never repeats a name |
| `Shell.ListedNamesComplete` | src/main.rs:52-56 | the list has one element per category and names every category of the map |
| `Shell.TwiceInSeq` | src/main.rs:52-56 | an element at two positions is counted twice |
| `Shell.SortedHeadsEqual` | src/main.rs:57 | two name-sorted permutations of a list with distinct names start with the same pair |
| `Shell.SortedPermutationUnique` | src/main.rs:57 | two name-sorted permutations of a list with distinct names are equal |
| `Shell.SortedListingUnique` | src/main.rs:52-57 | the sorted list is the same whatever order the hash map yields its pairs in |
| `Shell.NavMenu` | src/main.rs:136-146 | the menu is a Home link followed by one link per category, in list order, labelled with its name |
| `Shell.MenuAscending` | src/main.rs:136-146 | after startup the category links of the menu are in strictly ascending name order |
| `Shell.MenuComplete` | src/main.rs:136-146 | after startup the menu has, after Home, one link per category of the data, each naming a category, and every category has its link |
| `Shell.AriaExpanded` | src/main.rs:104 | `aria-expanded` is `"true"` exactly when the menu is open, `"false"` otherwise |

## Left out

- Percent-decoding of the route parameter (`decode_name`, `urlencoding::decode`) is a foreign library. The `Category` constructor and `Changed` take the decoder as a function parameter. Its panic on malformed UTF-8 is not modelled.
- Loading the data (`src/data.rs`: `include_dir!` and `serde_json::from_str`) is build-time asset embedding plus a foreign parser. The data map is an input.
- JSON numbers are integers here. The projection only asks whether a value is a string, an array or an object, so floating point plays no part.
- The order in which `serde_json` iterates an object's keys is taken as given: it is the order of the object's pairs. With `serde_json`'s default map that order is ascending by key, but the model does not depend on it.
- Yew and yew_router markup is not modelled: CSS classes, the `Redirect`/`Link` components, `BrowserRouter`, the `switch` function, the header text, the footer and `icons::link_out()`. Only the data each view is built from is modelled.
- `src/home.rs` and `src/not_found.rs` are static markup. `tailwind.config.js`, `main()` and `wasm_logger` are configuration and startup plumbing.
- Panic messages are not modelled. Each panic is an error value naming the check that failed.
- Rust evaluates the per-tag string check lazily, while the hard-tag chips are built. That is still inside the same `view_entry` call and after the soft tags, so the model checks it eagerly in the same position.
