/**
 * Splitting a non-negative integer into base-64 and base-256 digits and joining the
 * digits back: the arithmetic under UTF-8 (6-bit groups) and Base64 (three octets
 * as four sextets).
 */
module Radix {

  lemma Digits3(cp: int)
    requires 0 <= cp
    ensures cp == (cp / 0x1000) * 0x1000 + ((cp / 0x40) % 0x40) * 0x40 + cp % 0x40
  {
    var a := cp / 0x40;
    assert cp == a * 0x40 + cp % 0x40;
    assert a == (a / 0x40) * 0x40 + a % 0x40;
    assert cp == (a / 0x40) * 0x1000 + (a % 0x40) * 0x40 + cp % 0x40;
    assert a / 0x40 == cp / 0x1000;
  }

  lemma Digits4(cp: int)
    requires 0 <= cp
    ensures cp == (cp / 0x4_0000) * 0x4_0000 + ((cp / 0x1000) % 0x40) * 0x1000
                  + ((cp / 0x40) % 0x40) * 0x40 + cp % 0x40
  {
    Digits3(cp);
    var a := cp / 0x1000;
    assert a == (a / 0x40) * 0x40 + a % 0x40;
    assert cp == (a / 0x40) * 0x4_0000 + (a % 0x40) * 0x1000 + ((cp / 0x40) % 0x40) * 0x40 + cp % 0x40;
    assert a / 0x40 == cp / 0x4_0000;
  }

  lemma Groups3(q: int, m: int, l: int)
    requires 0 <= q && 0 <= m < 0x40 && 0 <= l < 0x40
    ensures var cp := q * 0x1000 + m * 0x40 + l;
            cp / 0x1000 == q && (cp / 0x40) % 0x40 == m && cp % 0x40 == l
  {
    var cp := q * 0x1000 + m * 0x40 + l;
    assert cp == (q * 0x40 + m) * 0x40 + l;
    assert cp / 0x40 == q * 0x40 + m;
  }

  lemma Groups4(q: int, h: int, m: int, l: int)
    requires 0 <= q && 0 <= h < 0x40 && 0 <= m < 0x40 && 0 <= l < 0x40
    ensures var cp := q * 0x4_0000 + h * 0x1000 + m * 0x40 + l;
            cp / 0x4_0000 == q && (cp / 0x1000) % 0x40 == h && (cp / 0x40) % 0x40 == m && cp % 0x40 == l
  {
    var cp := q * 0x4_0000 + h * 0x1000 + m * 0x40 + l;
    Groups3(q * 0x40 + h, m, l);
    assert cp == (q * 0x40 + h) * 0x1000 + m * 0x40 + l;
    assert cp / 0x1000 == q * 0x40 + h;
  }

}
