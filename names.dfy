/**
 * The names the scenario gives its devices and endpoints, and the string facts the
 * module mapping depends on: Java's decimal rendering of an index, the "-" join of a
 * hospital index and a patient index, and String.startsWith.
 */
module Names {

  predicate IsDigit(c: char) {
    '0' <= c <= '9'
  }

  /** The character of one decimal digit. */
  function Digit(d: nat): (c: char)
    requires d < 10
    ensures IsDigit(c) && c as int - '0' as int == d
  {
    (48 + d) as char
  }

  /** Decimal rendering of a non-negative int, as `i + ""` produces it in Java. */
  function NatToString(n: nat): (s: string)
    ensures |s| >= 1
    ensures |s| == 1 <==> n < 10
    ensures forall k :: 0 <= k < |s| ==> IsDigit(s[k])
    decreases n
  {
    if n < 10 then [Digit(n)] else NatToString(n / 10) + [Digit(n % 10)]
  }

  /** Different indices render differently. */
  lemma {:induction false} NatToStringInjective(a: nat, b: nat)
    requires NatToString(a) == NatToString(b)
    ensures a == b
    decreases a
  {
    var sa, sb := NatToString(a), NatToString(b);
    if a < 10 || b < 10 {
      assert |sa| == 1 && |sb| == 1;
      assert sa[0] == Digit(a) && sb[0] == Digit(b);
    } else {
      assert sa == NatToString(a / 10) + [Digit(a % 10)];
      assert sb == NatToString(b / 10) + [Digit(b % 10)];
      assert sa[|sa| - 1] == Digit(a % 10) && sb[|sb| - 1] == Digit(b % 10);
      assert NatToString(a / 10) == sa[..|sa| - 1] == sb[..|sb| - 1] == NatToString(b / 10);
      NatToStringInjective(a / 10, b / 10);
    }
  }

  /** The identifier of patient `j` of the hospital whose identifier is `hid`: `hid + "-" + j`. */
  function MobileId(hid: string, j: nat): (id: string) {
    hid + "-" + NatToString(j)
  }

  /**
   * The single "-" between two decimal indices marks where the first one ends, so the
   * pair of indices can be read back from the joined identifier.
   */
  lemma MobileIdInjective(h1: nat, j1: nat, h2: nat, j2: nat)
    requires MobileId(NatToString(h1), j1) == MobileId(NatToString(h2), j2)
    ensures h1 == h2 && j1 == j2
  {
    var a, c := NatToString(h1), NatToString(h2);
    var b, d := NatToString(j1), NatToString(j2);
    var s := a + "-" + b;
    assert s == c + "-" + d;
    // the first "-" of s sits right after the digits of the hospital index
    assert s[|a|] == '-' && s[|c|] == '-';
    assert |a| == |c|;
    assert a == s[..|a|] == c;
    assert b == s[|a| + 1..] == d;
    NatToStringInjective(h1, h2);
    NatToStringInjective(j1, j2);
  }

  /** The four kinds of device the topology builder creates. */
  datatype DeviceName =
    | Cloud
    | Proxy
    | Router(hospital: nat)
    | Patient(hospital: nat, patient: nat)

  /** The device name string the builder gives each kind of device. */
  function Render(n: DeviceName): (name: string) {
    match n
    case Cloud => "cloud"
    case Proxy => "proxy_server"
    case Router(h) => "d-" + NatToString(h)
    case Patient(h, p) => "m-" + MobileId(NatToString(h), p)
  }

  /** Distinct devices get distinct name strings. */
  lemma RenderInjective(a: DeviceName, b: DeviceName)
    requires Render(a) == Render(b)
    ensures a == b
  {
    var s := Render(a);
    assert s[0] == Render(b)[0];
    match a
    case Cloud =>
    case Proxy =>
    case Router(h) =>
      var h' := b.hospital;
      assert NatToString(h) == s[2..] == NatToString(h');
      NatToStringInjective(h, h');
    case Patient(h, p) =>
      assert MobileId(NatToString(h), p) == s[2..] == MobileId(NatToString(b.hospital), b.patient);
      MobileIdInjective(h, p, b.hospital, b.patient);
  }

  /** Java's String.startsWith. */
  predicate StartsWith(s: string, prefix: string) {
    |prefix| <= |s| && s[..|prefix|] == prefix
  }

  /**
   * Which generated names each one-letter prefix rule selects: "p" selects only the
   * proxy, "h" selects nothing, "m" selects exactly the patient devices and "d" exactly
   * the routers.
   */
  lemma RenderPrefixes(n: DeviceName)
    ensures StartsWith(Render(n), "p") <==> n == Proxy
    ensures !StartsWith(Render(n), "h")
    ensures StartsWith(Render(n), "m") <==> n.Patient?
    ensures StartsWith(Render(n), "d") <==> n.Router?
  {
    assert Render(n)[..1] == [Render(n)[0]];
  }
}
