/** The customer's order history of src/pages/CustomerOrders.tsx: how an
    order's status is written out and coloured. Case mapping is ASCII only. */
module CustomerOrders {
  import opened Common
  import opened Records

  /** `status.split('_')`: JavaScript's split, so the empty string gives one
      empty word and every separator starts a new, possibly empty, word. */
  function Split(s: string): (ws: seq<string>)
    ensures |ws| >= 1
  {
    if s == [] then [[]]
    else if s[0] == '_' then [[]] + Split(s[1..])
    else
      var r := Split(s[1..]);
      [[s[0]] + r[0]] + r[1..]
  }

  /** `word.charAt(0).toUpperCase() + word.slice(1)`. */
  function Capitalize(w: string): (r: string)
    ensures |r| == |w|
  {
    if w == [] then [] else [ToUpper(w[0])] + w[1..]
  }

  function CapitalizeAll(ws: seq<string>): (r: seq<string>)
    ensures |r| == |ws| && forall i :: 0 <= i < |ws| ==> r[i] == Capitalize(ws[i])
  {
    if ws == [] then [] else [Capitalize(ws[0])] + CapitalizeAll(ws[1..])
  }

  /** `.join(' ')`. */
  function Join(ws: seq<string>): string {
    if ws == [] then []
    else if |ws| == 1 then ws[0]
    else ws[0] + " " + Join(ws[1..])
  }

  /** `getStatusText`. */
  function StatusText(status: string): string {
    Join(CapitalizeAll(Split(status)))
  }

  /** A character-by-character reading of the same text: each '_' becomes a
      space, and the first character of every word is upper-cased. */
  function Titled(s: string, wordStart: bool): string {
    if s == [] then []
    else if s[0] == '_' then [' '] + Titled(s[1..], true)
    else [if wordStart then ToUpper(s[0]) else s[0]] + Titled(s[1..], false)
  }

  /** Where the written-out text comes from, character by character. */
  lemma {:induction false} TitledChars(s: string, wordStart: bool)
    ensures |Titled(s, wordStart)| == |s|
    ensures forall i {:trigger Titled(s, wordStart)[i]} :: 0 <= i < |s| ==>
              Titled(s, wordStart)[i] ==
                (if s[i] == '_' then ' '
                 else if (i == 0 && wordStart) || (i > 0 && s[i - 1] == '_') then ToUpper(s[i])
                 else s[i])
  {
    if s != [] {
      var tail := Titled(s[1..], s[0] == '_');
      TitledChars(s[1..], s[0] == '_');
      var t := Titled(s, wordStart);
      assert t == [t[0]] + tail;
      forall i | 0 <= i < |s|
        ensures t[i] == (if s[i] == '_' then ' '
                         else if (i == 0 && wordStart) || (i > 0 && s[i - 1] == '_') then ToUpper(s[i])
                         else s[i])
      {
        if i > 0 {
          assert t[i] == tail[i - 1];
          assert s[1..][i - 1] == s[i];
          if i > 1 {
            assert s[1..][i - 2] == s[i - 1];
          }
        }
      }
    }
  }

  /** The split, capitalise and join of the source agree with the reading
      above; the first word without its capital agrees with it started
      mid-word. */
  lemma {:induction false} StatusTextIsTitled(s: string)
    ensures Join(CapitalizeAll(Split(s))) == Titled(s, true)
    ensures var ws := Split(s); Join([ws[0]] + CapitalizeAll(ws[1..])) == Titled(s, false)
  {
    if s != [] {
      StatusTextIsTitled(s[1..]);
      if s[0] == '_' {
        TitledAtSeparator(s);
      } else {
        TitledInWord(s);
      }
    }
  }

  lemma TitledAtSeparator(s: string)
    requires s != [] && s[0] == '_'
    requires Join(CapitalizeAll(Split(s[1..]))) == Titled(s[1..], true)
    ensures Join(CapitalizeAll(Split(s))) == Titled(s, true)
    ensures var ws := Split(s); Join([ws[0]] + CapitalizeAll(ws[1..])) == Titled(s, false)
  {
    var r := Split(s[1..]);
    assert Split(s) == [[]] + r;
    assert CapitalizeAll([[]] + r) == [[]] + CapitalizeAll(r);
    assert ([[]] + CapitalizeAll(r))[1..] == CapitalizeAll(r);
    assert ([[]] + r)[1..] == r;
  }

  lemma TitledInWord(s: string)
    requires s != [] && s[0] != '_'
    requires var r := Split(s[1..]); Join([r[0]] + CapitalizeAll(r[1..])) == Titled(s[1..], false)
    ensures Join(CapitalizeAll(Split(s))) == Titled(s, true)
    ensures var ws := Split(s); Join([ws[0]] + CapitalizeAll(ws[1..])) == Titled(s, false)
  {
    var r := Split(s[1..]);
    var ws := Split(s);
    assert ws == [[s[0]] + r[0]] + r[1..];
    assert ws[1..] == r[1..];
    JoinFirst([ToUpper(s[0])], r[0], CapitalizeAll(r[1..]));
    JoinFirst([s[0]], r[0], CapitalizeAll(r[1..]));
    assert CapitalizeAll(ws) == [Capitalize(ws[0])] + CapitalizeAll(r[1..]);
    assert Capitalize(ws[0]) == [ToUpper(s[0])] + r[0];
  }

  lemma JoinFirst(a: string, w: string, rest: seq<string>)
    ensures Join([a + w] + rest) == a + Join([w] + rest)
  {
    assert ([a + w] + rest)[1..] == rest;
    assert ([w] + rest)[1..] == rest;
  }

  /** What `getStatusText` promises: the same length, no '_' left, spaces
      exactly where the underscores and the spaces were, and every word
      upper-cased at its first character while the rest is kept. */
  lemma StatusTextSpec(status: string)
    ensures |StatusText(status)| == |status|
    ensures forall i :: 0 <= i < |status| ==> (StatusText(status)[i] == ' ' <==> status[i] == '_' || status[i] == ' ')
    ensures '_' !in StatusText(status)
    ensures forall i :: 0 <= i < |status| && status[i] != '_' ==>
              StatusText(status)[i] == (if i == 0 || status[i - 1] == '_' then ToUpper(status[i]) else status[i])
  {
    var t := StatusText(status);
    StatusTextIsTitled(status);
    TitledChars(status, true);
    assert t == Titled(status, true);
    forall i | 0 <= i < |t|
      ensures t[i] != '_' && (t[i] == ' ' <==> status[i] == '_' || status[i] == ' ')
    {
      assert t[i] == Titled(status, true)[i];
      assert |t| == |status|;
      assert t[i] == (if status[i] == '_' then ' '
                      else if i == 0 || status[i - 1] == '_' then ToUpper(status[i])
                      else status[i]);
      CharOf(status, t, i);
    }
  }

  lemma CharOf(status: string, t: string, i: int)
    requires |t| == |status| && 0 <= i < |t|
    requires t[i] == (if status[i] == '_' then ' '
                      else if i == 0 || status[i - 1] == '_' then ToUpper(status[i])
                      else status[i])
    ensures t[i] != '_' && (t[i] == ' ' <==> status[i] == '_' || status[i] == ' ')
  {
  }

  /** 'out_for_delivery' is written out as 'Out For Delivery'. */
  lemma StatusTextExample(status: string)
    requires status == "out_for_delivery"
    ensures StatusText(status) == "Out For Delivery"
  {
    StatusTextSpec(status);
    var t := StatusText(status);
    assert t[0] == 'O' && t[1] == 'u' && t[2] == 't' && t[3] == ' ';
    assert t[4] == 'F' && t[5] == 'o' && t[6] == 'r' && t[7] == ' ';
    assert t[8] == 'D' && t[9] == 'e' && t[10] == 'l' && t[11] == 'i';
    assert t[12] == 'v' && t[13] == 'e' && t[14] == 'r' && t[15] == 'y';
  }

  /** Writing out an already written-out status changes nothing. */
  lemma StatusTextIdempotent(status: string)
    ensures StatusText(StatusText(status)) == StatusText(status)
  {
    var t := StatusText(status);
    StatusTextSpec(status);
    StatusTextSpec(t);
    forall i | 0 <= i < |t|
      ensures StatusText(t)[i] == t[i]
    {
      assert t[i] != '_' by { assert t[i] in t; }
      if i > 0 {
        assert t[i - 1] != '_' by { assert t[i - 1] in t; }
      } else if status[0] != '_' {
        ToUpperIdempotent(status[0]);
      }
    }
  }

  /** The statuses this page distinguishes. */
  const CustomerStatuses := ["pending", "confirmed", "preparing", "out_for_delivery", "delivered", "cancelled"]

  const GrayClass := "bg-gray-100 text-gray-800"

  /** `getStatusColor`. */
  function StatusColor(status: string): string {
    if status == "pending" then "bg-yellow-100 text-yellow-800"
    else if status == "confirmed" then "bg-blue-100 text-blue-800"
    else if status == "preparing" then "bg-orange-100 text-orange-800"
    else if status == "out_for_delivery" then "bg-purple-100 text-purple-800"
    else if status == "delivered" then "bg-emerald-100 text-emerald-800"
    else if status == "cancelled" then "bg-red-100 text-red-800"
    else GrayClass
  }

  /** Each of the six statuses has its own colour and everything else is
      gray. */
  lemma StatusColorSpec(status: string, other: string)
    ensures StatusColor(status) == GrayClass <==> status !in CustomerStatuses
    ensures status in CustomerStatuses && other in CustomerStatuses && status != other ==>
              StatusColor(status) != StatusColor(other)
  {
  }

  /** The stored status 'ready' has no colour of its own here. */
  lemma ReadyIsGray()
    ensures "ready" in OrderStatuses && StatusColor("ready") == GrayClass
  {
    assert OrderStatuses[3] == "ready";
  }

  datatype Icon = Clock | CheckCircle | Package | Truck | XCircle

  /** `getStatusIcon`: the icon and its colour. */
  function StatusIcon(status: string): (Icon, string) {
    if status == "pending" then (Clock, "text-yellow-600")
    else if status == "confirmed" then (CheckCircle, "text-blue-600")
    else if status == "preparing" then (Package, "text-orange-600")
    else if status == "out_for_delivery" then (Truck, "text-purple-600")
    else if status == "delivered" then (CheckCircle, "text-emerald-600")
    else if status == "cancelled" then (XCircle, "text-red-600")
    else (Clock, "text-gray-600")
  }

  /** The icon is gray exactly for the statuses the badge shows gray. */
  lemma StatusIconSpec(status: string)
    ensures StatusIcon(status).1 == "text-gray-600" <==> StatusColor(status) == GrayClass
    ensures StatusIcon(status).0 == Truck <==> status == "out_for_delivery"
  {
  }
}
