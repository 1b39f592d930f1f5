/**
 * cache-busting.js: once the page has loaded, every script, stylesheet and
 * image URL without a query string gets `?v=<timestamp>`, one timestamp
 * for the whole page.
 */
module CacheBusting {
  import opened JsValues

  /** The rule each loop applies to one `src` / `href`. */
  function Bust(url: string, timestamp: nat): (r: string)
    ensures url == "" || '?' in url ==> r == url
    ensures url != "" && '?' !in url ==> r == url + "?v=" + NumberToString(timestamp)
    ensures r == "" <==> url == ""
    ensures url != "" ==> '?' in r
  {
    if url != "" && '?' !in url then
      var r := url + "?v=" + NumberToString(timestamp);
      assert r[|url|] == '?';
      r
    else url
  }

  /** A second pass, with any timestamp, changes nothing. */
  lemma BustIdempotent(url: string, t1: nat, t2: nat)
    ensures Bust(Bust(url, t1), t2) == Bust(url, t1)
  {
  }

  /** `urls.forEach(el => { if (el.src && !el.src.includes('?')) el.src += ... })` */
  method BustEach(urls: array<string>, timestamp: nat)
    modifies urls
    ensures forall i :: 0 <= i < urls.Length ==> urls[i] == Bust(old(urls[i]), timestamp)
  {
    var i := 0;
    while i < urls.Length
      invariant 0 <= i <= urls.Length
      invariant forall j :: 0 <= j < i ==> urls[j] == Bust(old(urls[j]), timestamp)
      invariant forall j :: i <= j < urls.Length ==> urls[j] == old(urls[j])
    {
      if urls[i] != "" && '?' !in urls[i] {
        urls[i] := urls[i] + "?v=" + NumberToString(timestamp);
      }
      i := i + 1;
    }
  }

  /**
   * The DOMContentLoaded handler: one clock reading, three lists. Each
   * element is rewritten on its own; because the rule is idempotent the
   * result is the same even when two lists share elements.
   */
  method ApplyCacheBusting(scripts: array<string>, links: array<string>, images: array<string>, now: nat)
    modifies scripts, links, images
    ensures forall i :: 0 <= i < scripts.Length ==> scripts[i] == Bust(old(scripts[i]), now)
    ensures forall i :: 0 <= i < links.Length ==> links[i] == Bust(old(links[i]), now)
    ensures forall i :: 0 <= i < images.Length ==> images[i] == Bust(old(images[i]), now)
  {
    BustEach(scripts, now);
    BustEach(links, now);
    BustEach(images, now);
    forall i | 0 <= i < scripts.Length
      ensures Bust(Bust(old(scripts[i]), now), now) == Bust(old(scripts[i]), now)
      ensures Bust(Bust(Bust(old(scripts[i]), now), now), now) == Bust(old(scripts[i]), now)
    {
      BustIdempotent(old(scripts[i]), now, now);
      BustIdempotent(Bust(old(scripts[i]), now), now, now);
    }
    forall i | 0 <= i < links.Length
      ensures Bust(Bust(old(links[i]), now), now) == Bust(old(links[i]), now)
    {
      BustIdempotent(old(links[i]), now, now);
    }
  }
}
