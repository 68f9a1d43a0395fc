/**
  The scheduled export job: it pages through the `role_users` index for the
  key `role_blacklist`, collects every username in double quotes, and
  builds the one-column CSV text that is then zipped and uploaded.
 */
module BlocklistScraper {
  import opened RoleTable
  import PyStr

  /** The index key the query asks for (`role_users_pk = :blacklist`). */
  const BLACKLIST_INDEX_KEY: string := "role_blacklist"

  /** `'"{}"'.format(username)`. */
  function Quote(username: string): (r: string)
    ensures |r| == |username| + 2 && r[0] == '"' && r[|r| - 1] == '"'
    ensures r[1..|r| - 1] == username
    ensures '\n' in r <==> '\n' in username
  {
    "\"" + username + "\""
  }

  /** The inverse of `Quote` on quoted text: drop the first and last
      character. */
  function Unquote(s: string): string {
    if |s| >= 2 then s[1..|s| - 1] else s
  }

  /** `map(lambda item: '"{}"'.format(item['username']['S']), items)`. */
  function QuoteAll(items: seq<Item>): (r: seq<string>)
    ensures |r| == |items|
    ensures forall i :: 0 <= i < |items| ==> r[i] == Quote(items[i].username)
  {
    if |items| == 0 then [] else QuoteAll(items[..|items| - 1]) + [Quote(items[|items| - 1].username)]
  }

  lemma QuoteAllConcat(a: seq<Item>, b: seq<Item>)
    ensures QuoteAll(a + b) == QuoteAll(a) + QuoteAll(b)
  {
    var l, r := QuoteAll(a + b), QuoteAll(a) + QuoteAll(b);
    assert |l| == |r|;
    forall i | 0 <= i < |l|
      ensures l[i] == r[i]
    {
      assert (a + b)[i] == if i < |a| then a[i] else b[i - |a|];
    }
  }

  /** The items of all pages, page after page. */
  function Flatten(pages: seq<seq<Item>>): seq<Item> {
    if |pages| == 0 then [] else Flatten(pages[..|pages| - 1]) + pages[|pages| - 1]
  }

  /** Pages are concatenated in page order, keeping the order inside each
      page. */
  lemma {:induction false} FlattenConcat(a: seq<seq<Item>>, b: seq<seq<Item>>)
    ensures Flatten(a + b) == Flatten(a) + Flatten(b)
    decreases |b|
  {
    if |b| > 0 {
      assert (a + b)[..|a + b| - 1] == a + b[..|b| - 1];
      FlattenConcat(a, b[..|b| - 1]);
    } else {
      assert a + b == a;
    }
  }

  /** `'username\n' + '\n'.join(usernames) + '\n'`. */
  function CsvText(usernames: seq<string>): string {
    "username\n" + PyStr.Join(usernames, '\n') + "\n"
  }

  /** The loop `for page in page_iterator: usernames.extend(...)`: every item
      of every page, quoted, in order, nothing dropped or merged. */
  method CollectUsernames(pages: seq<seq<Item>>) returns (usernames: seq<string>)
    ensures usernames == QuoteAll(Flatten(pages))
    ensures |usernames| == |Flatten(pages)|
  {
    usernames := [];
    for p := 0 to |pages|
      invariant usernames == QuoteAll(Flatten(pages[..p]))
    {
      assert pages[..p + 1][..p] == pages[..p];
      assert Flatten(pages[..p + 1]) == Flatten(pages[..p]) + pages[p];
      QuoteAllConcat(Flatten(pages[..p]), pages[p]);
      usernames := usernames + QuoteAll(pages[p]);
    }
    assert pages[..|pages|] == pages;
  }

  /** `lambda_handler`, up to the upload: the CSV text and the count it
      reports. */
  method LambdaHandler(pages: seq<seq<Item>>) returns (csv: string, count: nat)
    ensures count == |Flatten(pages)|
    ensures csv == CsvText(QuoteAll(Flatten(pages)))
  {
    var usernames := CollectUsernames(pages);
    count := |usernames|;
    csv := CsvText(usernames);
  }

  // ---------------------------------------------------------------------
  // Shape of the exported text
  // ---------------------------------------------------------------------

  lemma {:induction false} JoinSnoc(parts: seq<string>, sep: char, last: string)
    requires |parts| >= 1
    ensures PyStr.Join(parts + [last], sep) == PyStr.Join(parts, sep) + [sep] + last
  {
    if |parts| > 1 {
      assert (parts + [last])[1..] == parts[1..] + [last];
      JoinSnoc(parts[1..], sep, last);
    }
  }

  /** Split on newlines, the export is the header line, then one line per
      entry (one empty line when there are none), each ending in a newline. */
  lemma CsvLines(usernames: seq<string>)
    requires forall i :: 0 <= i < |usernames| ==> '\n' !in usernames[i]
    ensures PyStr.Split(CsvText(usernames), '\n')
         == ["username"] + (if usernames == [] then [""] else usernames) + [""]
  {
    var body := if usernames == [] then [""] else usernames;
    var lines := ["username"] + body + [""];
    JoinSnoc(["username"] + body, '\n', "");
    assert (["username"] + body)[1..] == body;
    assert CsvText(usernames) == PyStr.Join(lines, '\n');
    PyStr.SplitJoin(lines, '\n');
  }

  /** An empty export is `username\n\n`. */
  lemma EmptyExport()
    ensures CsvText([]) == "username\n\n"
  {
  }

  /** Reads an export back: the lines between the header and the final
      newline, unquoted. */
  function ReadExport(text: string): seq<string> {
    var lines := PyStr.Split(text, '\n');
    if |lines| < 2 then []
    else seq(|lines| - 2, i requires 0 <= i < |lines| - 2 => Unquote(lines[i + 1]))
  }

  lemma ReadExportLines(text: string, body: seq<string>)
    requires PyStr.Split(text, '\n') == ["username"] + body + [""]
    ensures |ReadExport(text)| == |body|
    ensures forall i :: 0 <= i < |body| ==> ReadExport(text)[i] == Unquote(body[i])
  {
    var lines := PyStr.Split(text, '\n');
    forall i | 0 <= i < |body|
      ensures ReadExport(text)[i] == Unquote(body[i])
    {
      assert lines[i + 1] == body[i];
    }
  }

  /** Round trip: reading back a non-empty export gives every username, in
      query order, duplicates included. An empty export reads back as one
      empty name, because of the extra newline. */
  lemma ExportRoundTrip(pages: seq<seq<Item>>)
    requires forall it :: it in Flatten(pages) ==> '\n' !in it.username
    ensures var items := Flatten(pages);
      ReadExport(CsvText(QuoteAll(items)))
        == if items == [] then [""] else seq(|items|, i requires 0 <= i < |items| => items[i].username)
  {
    var items := Flatten(pages);
    var entries := QuoteAll(items);
    forall i | 0 <= i < |entries|
      ensures '\n' !in entries[i]
    {
      assert items[i] in items;
    }
    var text := CsvText(entries);
    CsvLines(entries);
    if items == [] {
      ReadExportLines(text, [""]);
    } else {
      ReadExportLines(text, entries);
      forall i | 0 <= i < |items|
        ensures Unquote(entries[i]) == items[i].username
      {
        assert entries[i] == Quote(items[i].username);
      }
    }
  }

  // ---------------------------------------------------------------------
  // What the index query returns
  // ---------------------------------------------------------------------

  /** `pages` is a complete answer of the `role_users` index for
      `indexKey`: exactly the stored items indexed under it, each once. */
  ghost predicate IsIndexQuery(pages: seq<seq<Item>>, items: map<Key, Item>, indexKey: string) {
    && (forall it :: it in Flatten(pages) <==> it in items.Values && it.roleUsersPk == indexKey)
    && (forall i, j :: 0 <= i < j < |Flatten(pages)| ==> Flatten(pages)[i] != Flatten(pages)[j])
  }

  /** On a well-formed table the deny-list query lists exactly the stored
      `blacklist` memberships: every exported item is the item stored at
      its own key under role `blacklist`, and every such item is exported. */
  lemma ExportIsTheDenyList(pages: seq<seq<Item>>, items: map<Key, Item>)
    requires WellFormed(items)
    requires IsIndexQuery(pages, items, BLACKLIST_INDEX_KEY)
    ensures forall it :: it in Flatten(pages) ==>
      it.KeyOf() in items && items[it.KeyOf()] == it && it.sk == RolePart("blacklist")
    ensures forall k :: k in items && k.sk == RolePart("blacklist") ==> items[k] in Flatten(pages)
  {
    forall it | it in Flatten(pages)
      ensures it.KeyOf() in items && items[it.KeyOf()] == it && it.sk == RolePart("blacklist")
    {
      var k :| k in items && items[k] == it;
    }
    forall k | k in items && k.sk == RolePart("blacklist")
      ensures items[k] in Flatten(pages)
    {
      assert items[k] in items.Values;
    }
  }
}
