/** The slide-in playlist panel (components/PlaylistSidebar.tsx): a header
    with the position counter and one row per entry, the current one
    highlighted, each with a badge naming the media subtype. */
module PlaylistSidebar {
  import opened Types
  import opened Strings

  /** The badge under an entry's name: `type.split('/')[1] || 'EXT'`. */
  function Badge(kind: string): (b: string)
    ensures b != []
  {
    OrElse(Field(kind, '/', 1), "EXT")
  }

  /** The badge of "major/sub..." is the subtype `sub`, the text after the
      first '/' up to the next '/' or the end, unless that text is empty. */
  lemma BadgeIsSubtype(major: string, sub: string, rest: string)
    requires '/' !in major && '/' !in sub
    requires rest == [] || rest[0] == '/'
    ensures Badge(major + "/" + sub + rest) == if sub == [] then "EXT" else sub
  {
    SecondField(major, sub, rest, '/');
  }

  /** A type without any '/' gets the fallback badge. */
  lemma BadgeWithoutSlash(kind: string)
    requires '/' !in kind
    ensures Badge(kind) == "EXT"
  {
    NoSecondField(kind, '/');
  }

  /** A badge is never empty, and it is the fallback or text of the type
      that holds no '/'. */
  lemma BadgeShape(kind: string)
    ensures Badge(kind) != []
    ensures Badge(kind) == "EXT" || ('/' !in Badge(kind) && '/' in kind)
  {
    NoSecondField(kind, '/');
  }

  /** What one row shows. */
  datatype Row = Row(name: string, badge: string, highlighted: bool)

  /** The rows of the list: `Rows(entries, from, current)` renders the
      entries found at positions `from`, `from + 1`, ... of the playlist. */
  function Rows(entries: seq<VideoState>, from: nat, current: nat): (rows: seq<Row>)
    ensures |rows| == |entries|
    ensures forall i :: 0 <= i < |rows| ==>
              rows[i].name == entries[i].name && rows[i].badge == Badge(entries[i].kind)
    ensures forall i :: 0 <= i < |rows| ==> (rows[i].highlighted <==> from + i == current)
    decreases |entries|
  {
    if entries == [] then []
    else
      [Row(entries[0].name, Badge(entries[0].kind), from == current)]
        + Rows(entries[1..], from + 1, current)
  }

  /** `playlist.map(...)`: one row per entry, in playlist order. */
  function PanelRows(playlist: seq<VideoState>, currentIndex: nat): (rows: seq<Row>)
    ensures |rows| == |playlist|
    ensures forall i :: 0 <= i < |rows| ==> rows[i].name == playlist[i].name
    ensures forall i :: 0 <= i < |rows| ==> (rows[i].highlighted <==> i == currentIndex)
  {
    Rows(playlist, 0, currentIndex)
  }

  /** The positions of the highlighted rows. */
  function Highlighted(rows: seq<Row>): set<nat>
  {
    set i: nat | i < |rows| && rows[i].highlighted
  }

  /** Exactly the row of the current entry is highlighted; with an index past
      the end of the list, none is. */
  lemma ExactlyCurrentHighlighted(playlist: seq<VideoState>, currentIndex: nat)
    ensures currentIndex < |playlist| ==> Highlighted(PanelRows(playlist, currentIndex)) == {currentIndex}
    ensures currentIndex >= |playlist| ==> Highlighted(PanelRows(playlist, currentIndex)) == {}
  {
    var rows := PanelRows(playlist, currentIndex);
    if currentIndex < |playlist| {
      assert currentIndex in Highlighted(rows);
    }
  }

  /** The header counter "k/n": the 1-based position of the current entry
      and the length of the list. */
  function Counter(playlist: seq<VideoState>, currentIndex: nat): (c: string)
    ensures |Digits(currentIndex + 1)| < |c| && c[|Digits(currentIndex + 1)|] == '/'
    ensures c[0] != '0'
  {
    Digits(currentIndex + 1) + "/" + Digits(|playlist|)
  }

  /** The counter reads back as the 1-based position and the list length, and
      while the index is valid the position lies between 1 and the length. */
  lemma CounterReadsBack(playlist: seq<VideoState>, currentIndex: nat)
    ensures var c := Counter(playlist, currentIndex);
            var slash := |Digits(currentIndex + 1)|;
            && slash < |c| && c[slash] == '/'
            && AllDigits(c[..slash]) && AllDigits(c[slash + 1..])
            && NumberValue(c[..slash]) == currentIndex + 1
            && NumberValue(c[slash + 1..]) == |playlist|
    ensures currentIndex < |playlist| ==> 1 <= currentIndex + 1 <= |playlist|
  {
    var c := Counter(playlist, currentIndex);
    var slash := |Digits(currentIndex + 1)|;
    assert c[..slash] == Digits(currentIndex + 1);
    assert c[slash + 1..] == Digits(|playlist|);
  }
}
