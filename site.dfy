/** The string logic at the start of `fetch_weverse_data`: which storefront a
    category URL belongs to, which artist it names, how a product's detail URL
    is built, and how the page title becomes a file-name stem. */
module Site {
  import opened PyJson
  import opened Text

  /** The two storefronts the scraper serves, each with its saved browser
      session and its currency code. */
  datatype Locale = KR | JP {
    function AuthFile(): string {
      if KR? then "weverse_env_KR.json" else "weverse_env_JP.json"
    }

    function Currency(): string {
      if KR? then "KRW" else "JPY"
    }
  }

  /** The storefront named by the URL: "KRW" wins over "JPY", and a URL with
      neither selects nothing, which ends the run. */
  function SelectLocale(url: string): (r: Option<Locale>)
    ensures r == Some(KR) <==> exists i :: OccursAt(url, "KRW", i)
    ensures r == Some(JP) <==> (forall i :: !OccursAt(url, "KRW", i)) && (exists i :: OccursAt(url, "JPY", i))
    ensures r == None <==> (forall i :: !OccursAt(url, "KRW", i)) && (forall i :: !OccursAt(url, "JPY", i))
  {
    if Contains(url, "KRW") then Some(KR)
    else if Contains(url, "JPY") then Some(JP)
    else None
  }

  /** The currency code the run reports, recomputed from the URL on its own. */
  function CurrentCurrency(url: string): string {
    if Contains(url, "KRW") then "KRW" else "JPY"
  }

  /** Whenever a storefront is selected, the reported currency is that
      storefront's, and the session file is the one for that currency. */
  lemma CurrencyAgreesWithLocale(url: string, l: Locale)
    requires SelectLocale(url) == Some(l)
    ensures CurrentCurrency(url) == l.Currency()
    ensures l.AuthFile() == "weverse_env_" + l.Currency()[..2] + ".json"
  {
  }

  predicate IsDigit(c: char) {
    '0' <= c <= '9'
  }

  predicate AllDigits(s: string) {
    forall i :: 0 <= i < |s| ==> IsDigit(s[i])
  }

  /** Length of the run of digits that starts at index i. */
  function DigitRun(s: string, i: nat): (n: nat)
    requires i <= |s|
    ensures i + n <= |s|
    ensures forall k :: i <= k < i + n ==> IsDigit(s[k])
    ensures i + n == |s| || !IsDigit(s[i + n])
    decreases |s| - i
  {
    if i < |s| && IsDigit(s[i]) then 1 + DigitRun(s, i + 1) else 0
  }

  const ArtistsKey: string := "artists/"

  /** The group of `artists/(\d+)/` when the pattern matches at index p. The
      greedy `\d+` takes the whole run of digits; giving digits back cannot
      help, since a digit is never the `/` that must follow. */
  function MatchAt(s: string, p: nat): (r: Option<string>)
    ensures r.Some? ==> r.value != [] && AllDigits(r.value) && OccursAt(s, ArtistsKey + r.value + "/", p)
  {
    if OccursAt(s, ArtistsKey, p) then
      var n := DigitRun(s, p + |ArtistsKey|);
      var e := p + |ArtistsKey| + n;
      if n > 0 && e < |s| && s[e] == '/' then
        assert s[p..e + 1] == ArtistsKey + s[p + |ArtistsKey|..e] + "/";
        Some(s[p + |ArtistsKey|..e])
      else None
    else None
  }

  /** `re.search`, looking from index p on: the leftmost index where the
      pattern matches, or |s| + 1 when it matches nowhere. */
  function SearchFrom(s: string, p: nat): (q: nat)
    requires p <= |s|
    ensures p <= q <= |s| + 1
    ensures q <= |s| ==> MatchAt(s, q).Some?
    ensures forall q' :: p <= q' < q ==> MatchAt(s, q').None?
    decreases |s| - p
  {
    if MatchAt(s, p).Some? then p
    else if p == |s| then |s| + 1
    else SearchFrom(s, p + 1)
  }

  /** The search lands on the first index where the pattern matches. */
  lemma {:induction false} SearchFindsFirst(s: string, p: nat, q: nat)
    requires p <= q <= |s| && MatchAt(s, q).Some?
    requires forall q' :: p <= q' < q ==> MatchAt(s, q').None?
    ensures SearchFrom(s, p) == q
    decreases q - p
  {
    if p < q {
      SearchFindsFirst(s, p + 1, q);
    }
  }

  /** A match can never start past the end of the string. */
  lemma NoMatchPastEnd(s: string, q: nat)
    requires q > |s|
    ensures MatchAt(s, q).None?
  {
  }

  /** The artist id: the digits of the leftmost `artists/<digits>/` in the
      URL, or "7" when there is none. */
  function ArtistId(url: string): (id: string)
    ensures id != [] && AllDigits(id)
    ensures id == "7" || exists p: nat :: MatchAt(url, p) == Some(id)
  {
    var q := SearchFrom(url, 0);
    if q <= |url| then MatchAt(url, q).value else "7"
  }

  /** The artist id is the leftmost match, and the default is used only when
      nothing matches. */
  lemma ArtistIdIsLeftmostMatch(url: string)
    ensures (forall q: nat :: MatchAt(url, q).None?) ==> ArtistId(url) == "7"
    ensures (exists q: nat :: MatchAt(url, q).Some?) ==>
              exists p: nat :: MatchAt(url, p) == Some(ArtistId(url)) &&
                               forall q: nat :: q < p ==> MatchAt(url, q).None?
  {
    var p := SearchFrom(url, 0);
    if p > |url| {
      forall q: nat ensures MatchAt(url, q).None? {
        if q > |url| { NoMatchPastEnd(url, q); }
      }
    }
  }

  const ShopRoot: string := "https://shop.weverse.io/zh-cn/shop/"

  /** The product page the scraper opens for one sale. */
  function DetailUrl(currency: string, artistId: string, saleId: string): string {
    ShopRoot + currency + "/" + ArtistsKey + artistId + "/sales/" + saleId
  }

  /** The detail URL lies under the shop root, in the storefront's
      currency, and its last path segment is the sale id. */
  lemma DetailUrlEndsWithSaleId(currency: string, artistId: string, saleId: string)
    requires '/' !in saleId
    ensures |ShopRoot + currency| <= |DetailUrl(currency, artistId, saleId)|
    ensures DetailUrl(currency, artistId, saleId)[..|ShopRoot + currency|] == ShopRoot + currency
    ensures LastPiece(DetailUrl(currency, artistId, saleId), '/') == saleId
  {
    var p := ShopRoot + currency + "/" + ArtistsKey + artistId + "/sales";
    assert DetailUrl(currency, artistId, saleId) == p + ['/'] + saleId;
    LastPieceAfter(p, '/', saleId);
  }

  /** The pattern matches right after `head` when the URL continues with
      `artists/`, a run of digits and a text starting with '/'. */
  lemma MatchAfter(head: string, artistId: string, sep: string, rest: string)
    requires artistId != [] && AllDigits(artistId) && sep != [] && sep[0] == '/'
    ensures MatchAt(head + ArtistsKey + artistId + sep + rest, |head|) == Some(artistId)
  {
    var url := head + ArtistsKey + artistId + sep + rest;
    var p := |head|;
    var a := p + |ArtistsKey|;
    assert url[p..a] == ArtistsKey;
    forall k | a <= k < a + |artistId| ensures IsDigit(url[k]) {
      assert url[k] == artistId[k - a];
    }
    assert url[a + |artistId|] == sep[0];
    assert DigitRun(url, a) == |artistId|;
    assert url[a..a + |artistId|] == artistId;
  }

  /** No match starts inside a prefix without the letter 'a'. */
  lemma NoMatchInside(url: string, head: string, q: nat)
    requires 'a' !in head && q < |head| <= |url| && url[q] == head[q]
    ensures MatchAt(url, q).None?
  {
    assert head[q] in head;
    assert q + |ArtistsKey| <= |url| ==> url[q..q + |ArtistsKey|][0] == url[q];
  }

  /** The storefront part of a detail URL holds no 'a'. */
  lemma StorefrontHasNoA(l: Locale)
    ensures 'a' !in ShopRoot + l.Currency() + "/"
  {
    if l.KR? {
      assert ShopRoot + l.Currency() + "/" == "https://shop.weverse.io/zh-cn/shop/KRW/";
    } else {
      assert ShopRoot + l.Currency() + "/" == "https://shop.weverse.io/zh-cn/shop/JPY/";
    }
  }

  /** The detail URL names the same artist: reading the artist id back out of
      it gives the id it was built from. */
  lemma DetailUrlNamesArtist(l: Locale, artistId: string, saleId: string)
    requires artistId != [] && AllDigits(artistId)
    ensures ArtistId(DetailUrl(l.Currency(), artistId, saleId)) == artistId
  {
    var head := ShopRoot + l.Currency() + "/";
    var url := DetailUrl(l.Currency(), artistId, saleId);
    assert url == head + ArtistsKey + artistId + "/sales/" + saleId;
    StorefrontHasNoA(l);
    MatchAfter(head, artistId, "/sales/", saleId);
    forall q: nat | q < |head| ensures MatchAt(url, q).None? {
      assert url[q] == head[q];
      NoMatchInside(url, head, q);
    }
    SearchFindsFirst(url, 0, |head|);
  }

  const SiteTitlePrefix: string := "Weverse Shop :"

  /** The title with every "Weverse Shop :" removed and surrounding whitespace
      trimmed. */
  function FullTitle(title: string): string {
    Strip(RemoveAll(title, SiteTitlePrefix))
  }

  /** The part of the title the scraper keeps: after the last '-' when there
      is one, else the whole, trimmed either way. */
  function CleanTitle(title: string): (r: string)
    ensures r == [] || (!IsSpace(r[0]) && !IsSpace(r[|r| - 1]))
  {
    var full := FullTitle(title);
    if '-' in full then Strip(LastPiece(full, '-')) else full
  }

  /** A title holding '-' keeps only its trimmed last piece, which holds no
      '-' and ends the trimmed title; a title without '-' is kept whole. */
  lemma CleanTitleKeepsLastPiece(title: string)
    ensures var full := FullTitle(title);
            var r := CleanTitle(title);
            ('-' in full ==>
               '-' !in r &&
               exists k :: 0 <= k < |full| && full[k] == '-' && '-' !in full[k + 1..] &&
                           r == Strip(full[k + 1..])) &&
            ('-' !in full ==> r == full)
  {
    var full := FullTitle(title);
    if '-' in full {
      var piece := LastPiece(full, '-');
      var k := |full| - |piece| - 1;
      assert |piece| < |full|;
      assert full[k + 1..] == piece;
      assert forall c :: c in Strip(piece) ==> c in piece;
    }
  }

  /** Removing the site prefix: a title made of the prefix and a remainder
      is cleaned as the remainder alone. */
  lemma SitePrefixDropped(rest: string)
    ensures CleanTitle(SiteTitlePrefix + rest) == CleanTitle(rest)
  {
    RemoveAllLeading(SiteTitlePrefix, rest);
  }

  /** The stem of the exported file names (`safe_title`). */
  function SafeTitle(title: string): (r: string)
    ensures IsClean(r)
  {
    Sanitize(CleanTitle(title))
  }
}
