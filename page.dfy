/**
 * The home page's data shaping: splitting the family links into photo
 * albums and other links, dropping the cards that would render without a
 * name or URL, and falling back to a default background image and
 * caption.
 */
module Page {
  import opened Optional
  import opened Airtable

  /**
   * The characters JavaScript's `String.prototype.trim` removes: the
   * ECMAScript WhiteSpace set (tab, vertical tab, form feed, no-break
   * space, byte order mark and every space separator) and the four line
   * terminators.
   */
  predicate IsJsWhitespace(c: char)
  {
    || c == '\t' || c == '\U{000B}' || c == '\U{000C}' || c == ' ' || c == '\U{00A0}' || c == '\U{FEFF}'
    || c == '\U{1680}' || ('\U{2000}' <= c <= '\U{200A}') || c == '\U{202F}' || c == '\U{205F}' || c == '\U{3000}'
    || c == '\n' || c == '\r' || c == '\U{2028}' || c == '\U{2029}'
  }

  /** Every character of `s` is whitespace (the empty string included). */
  ghost predicate Blank(s: string)
  {
    forall i :: 0 <= i < |s| ==> IsJsWhitespace(s[i])
  }

  function TrimStart(s: string): (r: string)
    ensures |r| <= |s| && r == s[|s| - |r|..]
    ensures r != "" ==> !IsJsWhitespace(r[0])
  {
    if |s| > 0 && IsJsWhitespace(s[0]) then TrimStart(s[1..]) else s
  }

  function TrimEnd(s: string): (r: string)
    ensures |r| <= |s| && r == s[..|r|]
    ensures r != "" ==> !IsJsWhitespace(r[|r| - 1])
  {
    if |s| > 0 && IsJsWhitespace(s[|s| - 1]) then TrimEnd(s[..|s| - 1]) else s
  }

  /** `s.trim()`. */
  function Trim(s: string): string
  {
    TrimEnd(TrimStart(s))
  }

  lemma {:induction false} TrimStartEmptyIffBlank(s: string)
    ensures TrimStart(s) == "" <==> Blank(s)
  {
    if |s| > 0 && IsJsWhitespace(s[0]) {
      TrimStartEmptyIffBlank(s[1..]);
      assert Blank(s) <==> Blank(s[1..]) by {
        if Blank(s[1..]) {
          forall i | 0 <= i < |s| ensures IsJsWhitespace(s[i]) {
            if i > 0 { assert s[i] == s[1..][i - 1]; }
          }
        }
        if Blank(s) {
          forall i | 0 <= i < |s[1..]| ensures IsJsWhitespace(s[1..][i]) {
            assert s[1..][i] == s[i + 1];
          }
        }
      }
    } else if |s| > 0 {
      assert !IsJsWhitespace(s[0]);
    }
  }

  lemma {:induction false} TrimEndEmptyIffBlank(s: string)
    ensures TrimEnd(s) == "" <==> Blank(s)
  {
    if |s| > 0 && IsJsWhitespace(s[|s| - 1]) {
      var init := s[..|s| - 1];
      TrimEndEmptyIffBlank(init);
      assert Blank(s) <==> Blank(init) by {
        if Blank(init) {
          forall i | 0 <= i < |s| ensures IsJsWhitespace(s[i]) {
            if i < |s| - 1 { assert s[i] == init[i]; }
          }
        }
        if Blank(s) {
          forall i | 0 <= i < |init| ensures IsJsWhitespace(init[i]) {
            assert init[i] == s[i];
          }
        }
      }
    } else if |s| > 0 {
      assert !IsJsWhitespace(s[|s| - 1]);
    }
  }

  /** `s.trim() === ''` exactly when `s` consists of whitespace only. */
  lemma TrimEmptyIffBlank(s: string)
    ensures Trim(s) == "" <==> Blank(s)
  {
    var t := TrimStart(s);
    TrimStartEmptyIffBlank(s);
    TrimEndEmptyIffBlank(t);
  }

  /** JavaScript truthiness of a possibly `undefined` string: present and non-empty. */
  predicate Truthy(v: Option<string>)
  {
    v.Some? && v.value != ""
  }

  /** `link.url && link.url.trim() !== ''`. */
  predicate HasUrl(link: Link)
  {
    Truthy(link.url) && Trim(link.url.value) != ""
  }

  predicate IsAlbum(link: Link)
  {
    link.category == Some("album") && HasUrl(link)
  }

  predicate IsOther(link: Link)
  {
    link.category == Some("link") && HasUrl(link)
  }

  /** The render-time filter `link.url && link.name`. */
  predicate ShowsCard(link: Link)
  {
    Truthy(link.url) && Truthy(link.name)
  }

  /** `links.filter(keep)`. */
  function Filter(xs: seq<Link>, keep: Link -> bool): (r: seq<Link>)
    ensures |r| <= |xs|
    ensures forall x :: x in r <==> x in xs && keep(x)
  {
    if xs == [] then []
    else if keep(xs[0]) then [xs[0]] + Filter(xs[1..], keep)
    else Filter(xs[1..], keep)
  }

  /** `a` is `b` with some elements dropped, the rest in their original order. */
  predicate IsSubsequence(a: seq<Link>, b: seq<Link>)
    decreases |b|
  {
    a == [] || (b != [] && ((a[0] == b[0] && IsSubsequence(a[1..], b[1..])) || IsSubsequence(a, b[1..])))
  }

  lemma {:induction false} FilterIsSubsequence(xs: seq<Link>, keep: Link -> bool)
    ensures IsSubsequence(Filter(xs, keep), xs)
  {
    if xs != [] {
      FilterIsSubsequence(xs[1..], keep);
      if keep(xs[0]) {
        assert ([xs[0]] + Filter(xs[1..], keep))[1..] == Filter(xs[1..], keep);
      }
    }
  }

  /** Filtering distributes over concatenation, so the kept elements appear in their original order. */
  lemma {:induction false} FilterConcat(a: seq<Link>, b: seq<Link>, keep: Link -> bool)
    ensures Filter(a + b, keep) == Filter(a, keep) + Filter(b, keep)
  {
    if a == [] {
      assert a + b == b;
    } else {
      assert (a + b)[0] == a[0];
      assert (a + b)[1..] == a[1..] + b;
      FilterConcat(a[1..], b, keep);
    }
  }

  /** The photo albums: links in the `album` category with a non-blank URL. */
  function AlbumLinks(links: seq<Link>): (r: seq<Link>)
    ensures forall l :: l in r <==> l in links && l.category == Some("album") && HasUrl(l)
  {
    Filter(links, IsAlbum)
  }

  /** The other family links: links in the `link` category with a non-blank URL. */
  function OtherLinks(links: seq<Link>): (r: seq<Link>)
    ensures forall l :: l in r <==> l in links && l.category == Some("link") && HasUrl(l)
  {
    Filter(links, IsOther)
  }

  /** The cards a section renders: its links that have both a URL and a name. */
  function Cards(section: seq<Link>): (r: seq<Link>)
    ensures forall l :: l in r <==> l in section && Truthy(l.url) && Truthy(l.name)
  {
    Filter(section, ShowsCard)
  }

  /** A link passes the URL test exactly when it has a URL with a character other than whitespace. */
  lemma HasUrlIffNotBlank(link: Link)
    ensures HasUrl(link) <==> link.url.Some? && !Blank(link.url.value)
  {
    if link.url.Some? {
      TrimEmptyIffBlank(link.url.value);
    }
  }

  /**
   * Albums and other links never share a link, and a link outside both
   * categories, or without a URL holding a non-whitespace character, is in
   * neither list.
   */
  lemma SectionsDisjointAndSelective(links: seq<Link>, l: Link)
    ensures !(l in AlbumLinks(links) && l in OtherLinks(links))
    ensures l.category != Some("album") && l.category != Some("link") ==> l !in AlbumLinks(links) && l !in OtherLinks(links)
    ensures l.url.None? || Blank(l.url.value) ==> l !in AlbumLinks(links) && l !in OtherLinks(links)
  {
    HasUrlIffNotBlank(l);
  }

  /** Both sections and their rendered cards keep the original order of the links. */
  lemma SectionsKeepOrder(links: seq<Link>)
    ensures IsSubsequence(AlbumLinks(links), links) && IsSubsequence(OtherLinks(links), links)
    ensures IsSubsequence(Cards(AlbumLinks(links)), AlbumLinks(links))
    ensures IsSubsequence(Cards(OtherLinks(links)), OtherLinks(links))
  {
    FilterIsSubsequence(links, IsAlbum);
    FilterIsSubsequence(links, IsOther);
    FilterIsSubsequence(AlbumLinks(links), ShowsCard);
    FilterIsSubsequence(OtherLinks(links), ShowsCard);
  }

  /** Sections split over concatenated link lists piece by piece. */
  lemma SectionsConcat(a: seq<Link>, b: seq<Link>)
    ensures AlbumLinks(a + b) == AlbumLinks(a) + AlbumLinks(b)
    ensures OtherLinks(a + b) == OtherLinks(a) + OtherLinks(b)
  {
    FilterConcat(a, b, IsAlbum);
    FilterConcat(a, b, IsOther);
  }

  const DefaultImageUrl: string := "/fam.jpg"
  const DefaultCaption: string := "Family Photo"

  /** The background image: the main photo's URL when it is present and not blank, else the local photo. */
  function ImageUrl(photo: Option<Photo>): (url: string)
    ensures photo.Some? && photo.value.url.Some? && !Blank(photo.value.url.value) ==> url == photo.value.url.value
    ensures photo.None? || photo.value.url.None? || Blank(photo.value.url.value) ==> url == DefaultImageUrl
    ensures !Blank(url)
  {
    if photo.Some? && Truthy(photo.value.url) && Trim(photo.value.url.value) != "" then
      TrimEmptyIffBlank(photo.value.url.value);
      photo.value.url.value
    else
      TrimEmptyIffBlank(if photo.Some? && photo.value.url.Some? then photo.value.url.value else "");
      assert !IsJsWhitespace(DefaultImageUrl[0]);
      DefaultImageUrl
  }

  /** The image caption: the main photo's caption when it is a non-empty string, else "Family Photo". */
  function ImageCaption(photo: Option<Photo>): (caption: string)
    ensures photo.Some? && Truthy(photo.value.caption) ==> caption == photo.value.caption.value
    ensures !(photo.Some? && Truthy(photo.value.caption)) ==> caption == DefaultCaption
    ensures caption != ""
  {
    if photo.Some? && Truthy(photo.value.caption) then photo.value.caption.value else DefaultCaption
  }

  /** A failed photo request or an empty table shows the local photo with the default caption. */
  lemma NoPhotoFallsBack(response: Option<seq<Record>>)
    requires response.None? || |response.value| == 0
    ensures ImageUrl(MainPhoto(response)) == DefaultImageUrl
    ensures ImageCaption(MainPhoto(response)) == DefaultCaption
  {
  }

  /** A failed links request renders no album and no other link. */
  lemma NoLinksOnFailure()
    ensures AlbumLinks(FamilyLinks(None)) == [] && OtherLinks(FamilyLinks(None)) == []
  {
  }
}
