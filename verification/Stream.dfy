/** What a sketch is driven by: packets of a source, and the ticks that end a window. */
module Stream {
  import opened Words

  datatype Event = Packet(src: Ip) | Tick

  function Last<T>(s: seq<T>): T
    requires s != []
  {
    s[|s| - 1]
  }

  function Init<T>(s: seq<T>): seq<T>
    requires s != []
  {
    s[..|s| - 1]
  }

  lemma PrefixStep<T>(s: seq<T>, t: nat)
    requires t < |s|
    ensures s[..t + 1] == s[..t] + [s[t]]
  {
  }

  /** The number of windows completed. */
  function Ticks(es: seq<Event>): nat {
    if es == [] then 0 else Ticks(Init(es)) + if Last(es).Tick? then 1 else 0
  }

  /** The events up to and including the last tick: where the current window starts. */
  function Start(es: seq<Event>): seq<Event> {
    if es == [] || Last(es).Tick? then es else Start(Init(es))
  }

  /** The sources of the packets since the last tick, in order. */
  function Window(es: seq<Event>): seq<Ip> {
    if es == [] || Last(es).Tick? then [] else Window(Init(es)) + [Last(es).src]
  }

  /** How many packets of a source a window holds. */
  function Times(h: seq<Ip>, ip: Ip): nat {
    multiset(h)[ip]
  }

  lemma TimesAppend(h: seq<Ip>, x: Ip, ip: Ip)
    ensures Times(h + [x], ip) == Times(h, ip) + if x == ip then 1 else 0
  {
  }
}
