/** The amount in words of a fiscal document (SUNAT catalogue 52, code 1000), and a reader that
    recovers the amount from the words. */
module Letras {
  import opened Comun

  const UNIDADES: seq<string> :=
    ["", "UNO", "DOS", "TRES", "CUATRO", "CINCO", "SEIS", "SIETE", "OCHO", "NUEVE"]

  /** The words from 10 to 29. */
  const ESPECIALES: seq<string> :=
    ["DIEZ", "ONCE", "DOCE", "TRECE", "CATORCE", "QUINCE", "DIECISEIS", "DIECISIETE", "DIECIOCHO", "DIECINUEVE",
     "VEINTE", "VEINTIUNO", "VEINTIDOS", "VEINTITRES", "VEINTICUATRO", "VEINTICINCO", "VEINTISEIS", "VEINTISIETE",
     "VEINTIOCHO", "VEINTINUEVE"]

  const DECENAS: seq<string> :=
    ["", "", "VEINTE", "TREINTA", "CUARENTA", "CINCUENTA", "SESENTA", "SETENTA", "OCHENTA", "NOVENTA"]

  const CENTENAS: seq<string> :=
    ["", "CIENTO", "DOSCIENTOS", "TRESCIENTOS", "CUATROCIENTOS", "QUINIENTOS", "SEISCIENTOS", "SETECIENTOS",
     "OCHOCIENTOS", "NOVECIENTOS"]

  // ------------------------------------------------------------------ the printer

  /** Two texts with a space between them. */
  function Con(a: string, b: string): string {
    a + " " + b
  }

  function MenorACien(n: nat): string
    requires n < 100
  {
    if n < 10 then UNIDADES[n]
    else if n < 30 then ESPECIALES[n - 10]
    else if n % 10 == 0 then DECENAS[n / 10]
    else Con(Con(DECENAS[n / 10], "Y"), UNIDADES[n % 10])
  }

  /** Past nine hundred the table has no word, and joining nothing gives an empty one. */
  function Centena(c: nat): string {
    if c < 10 then CENTENAS[c] else ""
  }

  function Unir(partes: seq<string>): string {
    if |partes| == 0 then ""
    else if |partes| == 1 then partes[0]
    else Con(Unir(partes[..|partes| - 1]), partes[|partes| - 1])
  }

  function MenorAMil(n: nat): string {
    if n == 0 then ""
    else if n == 100 then "CIEN"
    else
      var c, resto := n / 100, n % 100;
      Unir((if c > 0 then [Centena(c)] else []) + (if resto > 0 then [MenorACien(resto)] else []))
  }

  function TextoMillones(m: nat): string {
    if m == 1 then Con("UN", "MILLON") else Con(MenorAMil(m), "MILLONES")
  }

  function TextoMiles(m: nat): string {
    if m == 1 then "MIL" else Con(MenorAMil(m), "MIL")
  }

  function RecortarInicio(s: string): string {
    if |s| > 0 && s[0] == ' ' then RecortarInicio(s[1..]) else s
  }

  function RecortarFin(s: string): string {
    if |s| > 0 && s[|s| - 1] == ' ' then RecortarFin(s[..|s| - 1]) else s
  }

  function EnteroALetras(n: nat): string {
    if n == 0 then "CERO"
    else
      var millones, miles, resto := n / 1000000, n % 1000000 / 1000, n % 1000;
      RecortarFin(RecortarInicio(Unir(
        (if millones > 0 then [TextoMillones(millones)] else [])
        + (if miles > 0 then [TextoMiles(miles)] else [])
        + (if resto > 0 then [MenorAMil(resto)] else []))))
  }

  predicate EsDigito(c: char) {
    '0' <= c <= '9'
  }

  /** The number a string of digits starts with. */
  function Digitos(s: string, previo: nat): nat {
    if |s| == 0 || !EsDigito(s[0]) then previo else Digitos(s[1..], previo * 10 + (s[0] as int - '0' as int))
  }

  /** parseInt without its sign; no number at all counts as zero. */
  function Entero(s: string): nat {
    if |s| > 0 && (s[0] == '-' || s[0] == '+') then Digitos(s[1..], 0) else Digitos(s, 0)
  }

  /** Up to the first point, or all of it. */
  function AntesDelPunto(s: string): string {
    if |s| == 0 || s[0] == '.' then "" else [s[0]] + AntesDelPunto(s[1..])
  }

  /** Between the first point and the next; "0" when there is no point. */
  function TrasElPunto(s: string): string {
    if |s| == 0 then "0" else if s[0] == '.' then AntesDelPunto(s[1..]) else TrasElPunto(s[1..])
  }

  function DosCifras(s: string): string {
    if |s| >= 2 then s[..2] else if |s| == 1 then s + "0" else "00"
  }

  function NombreMoneda(moneda: string): string {
    if moneda == "PEN" then "SOLES" else if moneda == "USD" then "DOLARES AMERICANOS" else moneda
  }

  function Frase(entero: string, centavos: string, moneda: string): string {
    Con("SON", Con(entero, Con("CON", Con(centavos + "/100", moneda))))
  }

  function MontoEnLetras(monto: string, moneda: string): string {
    Frase(EnteroALetras(Entero(AntesDelPunto(monto))), DosCifras(TrasElPunto(monto)), NombreMoneda(moneda))
  }

  // ------------------------------------------------------------------ amounts as they are printed

  function Cifra(d: nat): char
    requires d < 10
  {
    '0' + d as char
  }

  function Decimal(n: nat): string {
    if n < 10 then [Cifra(n)] else Decimal(n / 10) + [Cifra(n % 10)]
  }

  /** An amount in cents with two decimals, as toFixed(2) writes it. */
  function ConDosDecimales(centimos: nat): string {
    Decimal(centimos / 100) + "." + [Cifra(centimos % 100 / 10), Cifra(centimos % 10)]
  }

  function Leyenda(centimos: nat, moneda: string): string {
    MontoEnLetras(ConDosDecimales(centimos), moneda)
  }

  // ------------------------------------------------------------------ the reader

  function ValeCorta(w: string): Option<nat> {
    if w == "SON" then Some(0)
    else if w == "Y" then Some(0)
    else if w == "CERO" then Some(0)
    else if w == "UN" then Some(1)
    else if w == "UNO" then Some(1)
    else if w == "DOS" then Some(2)
    else if w == "TRES" then Some(3)
    else if w == "SEIS" then Some(6)
    else if w == "OCHO" then Some(8)
    else if w == "DIEZ" then Some(10)
    else if w == "ONCE" then Some(11)
    else if w == "DOCE" then Some(12)
    else if w == "CIEN" then Some(100)
    else None
  }

  function ValeMedia(w: string): Option<nat> {
    if w == "CUATRO" then Some(4)
    else if w == "CINCO" then Some(5)
    else if w == "SIETE" then Some(7)
    else if w == "NUEVE" then Some(9)
    else if w == "TRECE" then Some(13)
    else if w == "CATORCE" then Some(14)
    else if w == "QUINCE" then Some(15)
    else if w == "VEINTE" then Some(20)
    else if w == "TREINTA" then Some(30)
    else if w == "SESENTA" then Some(60)
    else if w == "SETENTA" then Some(70)
    else if w == "OCHENTA" then Some(80)
    else if w == "NOVENTA" then Some(90)
    else if w == "CIENTO" then Some(100)
    else None
  }

  function ValeLarga(w: string): Option<nat> {
    if w == "DIECISEIS" then Some(16)
    else if w == "DIECISIETE" then Some(17)
    else if w == "DIECIOCHO" then Some(18)
    else if w == "DIECINUEVE" then Some(19)
    else if w == "VEINTIUNO" then Some(21)
    else if w == "VEINTIDOS" then Some(22)
    else if w == "VEINTITRES" then Some(23)
    else if w == "VEINTISEIS" then Some(26)
    else if w == "VEINTIOCHO" then Some(28)
    else if w == "CUARENTA" then Some(40)
    else if w == "CINCUENTA" then Some(50)
    else if w == "DOSCIENTOS" then Some(200)
    else if w == "QUINIENTOS" then Some(500)
    else None
  }

  function ValeMuyLarga(w: string): Option<nat> {
    if w == "VEINTICUATRO" then Some(24)
    else if w == "VEINTICINCO" then Some(25)
    else if w == "VEINTISIETE" then Some(27)
    else if w == "VEINTINUEVE" then Some(29)
    else if w == "TRESCIENTOS" then Some(300)
    else if w == "CUATROCIENTOS" then Some(400)
    else if w == "SEISCIENTOS" then Some(600)
    else if w == "SETECIENTOS" then Some(700)
    else if w == "OCHOCIENTOS" then Some(800)
    else if w == "NOVECIENTOS" then Some(900)
    else None
  }

  /** What a word adds to the group being read; none for the words that close one. The words are
      looked up by length. */
  function Vale(w: string): Option<nat> {
    if |w| <= 4 then ValeCorta(w)
    else if |w| <= 7 then ValeMedia(w)
    else if |w| <= 10 then ValeLarga(w)
    else ValeMuyLarga(w)
  }

  /** Where a reading stands: in the whole amount, waiting for the cents, or done. */
  datatype Lectura = Leyendo(total: nat, grupo: nat) | Centavos(entero: nat) | Listo(centimos: nat)

  function DosDigitos(w: string): nat {
    if |w| >= 2 && EsDigito(w[0]) && EsDigito(w[1]) then (w[0] as int - '0' as int) * 10 + (w[1] as int - '0' as int) else 0
  }

  function Palabra(e: Lectura, w: string): Lectura {
    match e
    case Leyendo(total, grupo) =>
      if Vale(w).Some? then Leyendo(total, grupo + Vale(w).value)
      else if w == "MIL" then Leyendo(total + (if grupo == 0 then 1000 else grupo * 1000), 0)
      else if w == "MILLON" || w == "MILLONES" then Leyendo(total + grupo * 1000000, 0)
      else if w == "CON" then Centavos(total + grupo)
      else e
    case Centavos(entero) => Listo(entero * 100 + DosDigitos(w))
    case Listo(_) => e
  }

  type Lector = (Lectura, string) -> Lectura

  function Diccionario(): Lector {
    (e: Lectura, w: string) => Palabra(e, w)
  }

  /** What a reader makes of a series of words. */
  function Leer(ws: seq<string>, e: Lectura, lector: Lector): Lectura {
    if |ws| == 0 then e else lector(Leer(ws[..|ws| - 1], e, lector), ws[|ws| - 1])
  }

  /** Put one more character in front of a text already split. */
  function Prefijar(c: char, r: seq<string>): (p: seq<string>)
    requires |r| > 0
    ensures |p| > 0
  {
    if c == ' ' then [""] + r else [[c] + r[0]] + r[1..]
  }

  /** The words between single spaces. */
  function Separar(s: string): (r: seq<string>)
    ensures |r| > 0
  {
    if |s| == 0 then [""] else Prefijar(s[0], Separar(s[1..]))
  }

  /** The amount a legend says, in cents. */
  function LeerMonto(s: string): Option<nat> {
    match Leer(Separar(s), Leyendo(0, 0), Diccionario())
    case Listo(centimos) => Some(centimos)
    case _ => None
  }

  // ------------------------------------------------------------------ words and spaces

  ghost predicate SinEspacios(w: string) {
    forall i :: 0 <= i < |w| ==> w[i] != ' '
  }

  lemma {:induction false} SepararUna(w: string)
    requires SinEspacios(w)
    ensures Separar(w) == [w]
  {
    if |w| > 0 {
      SepararUna(w[1..]);
      assert [w[0]] + w[1..] == w;
    }
  }

  lemma {:induction false} PrefijarConcat(c: char, p: seq<string>, q: seq<string>)
    requires |p| > 0
    ensures Prefijar(c, p + q) == Prefijar(c, p) + q
  {
    assert (p + q)[1..] == p[1..] + q;
  }

  lemma {:induction false} SepararUnion(a: string, b: string)
    ensures Separar(Con(a, b)) == Separar(a) + Separar(b)
  {
    if |a| == 0 {
      assert Con(a, b)[1..] == b;
    } else {
      SepararUnion(a[1..], b);
      assert Con(a, b)[1..] == Con(a[1..], b);
      PrefijarConcat(a[0], Separar(a[1..]), Separar(b));
    }
  }

  lemma {:induction false} LeerConcat(a: seq<string>, b: seq<string>, e: Lectura, lector: Lector)
    ensures Leer(a + b, e, lector) == Leer(b, Leer(a, e, lector), lector)
  {
    if |b| == 0 {
      assert a + b == a;
    } else {
      LeerConcat(a, b[..|b| - 1], e, lector);
      assert (a + b)[..|a + b| - 1] == a + b[..|b| - 1];
    }
  }

  // ------------------------------------------------------------------ a reader that knows the words

  ghost predicate Suma(lector: Lector, w: string, n: nat) {
    SinEspacios(w) && forall t: nat, g: nat :: lector(Leyendo(t, g), w) == Leyendo(t, g + n)
  }

  ghost predicate Cierra(lector: Lector, w: string, factor: nat) {
    SinEspacios(w) && forall t: nat, g: nat :: g > 0 ==> lector(Leyendo(t, g), w) == Leyendo(t + g * factor, 0)
  }

  ghost predicate SabeSumar(lector: Lector) {
    && Suma(lector, "Y", 0) && Suma(lector, "CERO", 0) && Suma(lector, "UN", 1) && Suma(lector, "CIEN", 100)
    && (forall n :: 1 <= n < 10 ==> Suma(lector, UNIDADES[n], n))
    && (forall i :: 0 <= i < 20 ==> Suma(lector, ESPECIALES[i], 10 + i))
    && (forall d :: 3 <= d < 10 ==> Suma(lector, DECENAS[d], 10 * d))
    && (forall c :: 1 <= c < 10 ==> Suma(lector, CENTENAS[c], 100 * c))
  }

  ghost predicate SabeCerrar(lector: Lector) {
    && Cierra(lector, "MIL", 1000) && Cierra(lector, "MILLON", 1000000) && Cierra(lector, "MILLONES", 1000000)
    && forall t: nat :: lector(Leyendo(t, 0), "MIL") == Leyendo(t + 1000, 0)
  }

  ghost predicate SabeTerminar(lector: Lector, son: string, con: string) {
    && Suma(lector, son, 0) && SinEspacios(con)
    && (forall t: nat, g: nat :: lector(Leyendo(t, g), con) == Centavos(t + g))
    && (forall n: nat, w :: lector(Centavos(n), w) == Listo(n * 100 + DosDigitos(w)))
    && (forall x: nat, w :: lector(Listo(x), w) == Listo(x))
  }

  // ------------------------------------------------------------------ numbers below a thousand

  /** The words read as n more in the group. */
  ghost predicate LeeN(lector: Lector, ws: seq<string>, n: nat) {
    forall t: nat, g: nat :: Leer(ws, Leyendo(t, g), lector) == Leyendo(t, g + n)
  }

  ghost predicate Lee(lector: Lector, s: string, n: nat) {
    LeeN(lector, Separar(s), n)
  }

  lemma {:induction false} LeeNUnion(lector: Lector, p: seq<string>, x: nat, q: seq<string>, y: nat)
    requires LeeN(lector, p, x) && LeeN(lector, q, y)
    ensures LeeN(lector, p + q, x + y)
  {
    forall t: nat, g: nat ensures Leer(p + q, Leyendo(t, g), lector) == Leyendo(t, g + (x + y)) {
      LeerConcat(p, q, Leyendo(t, g), lector);
      assert Leer(p, Leyendo(t, g), lector) == Leyendo(t, g + x);
      assert Leer(q, Leyendo(t, g + x), lector) == Leyendo(t, g + x + y);
    }
  }

  lemma {:induction false} LeePalabra(lector: Lector, w: string, n: nat)
    requires Suma(lector, w, n)
    ensures Lee(lector, w, n)
  {
    SepararUna(w);
    forall t: nat, g: nat ensures Leer([w], Leyendo(t, g), lector) == Leyendo(t, g + n) {
    }
  }

  lemma {:induction false} LeeUnion(lector: Lector, a: string, x: nat, b: string, y: nat)
    requires Lee(lector, a, x) && Lee(lector, b, y)
    ensures Lee(lector, Con(a, b), x + y)
  {
    SepararUnion(a, b);
    LeeNUnion(lector, Separar(a), x, Separar(b), y);
  }

  lemma {:induction false} CienLee(lector: Lector, n: nat)
    requires SabeSumar(lector) && 0 < n < 100
    ensures Lee(lector, MenorACien(n), n)
  {
    if n < 10 {
      LeePalabra(lector, UNIDADES[n], n);
    } else if n < 30 {
      LeePalabra(lector, ESPECIALES[n - 10], n);
    } else {
      LeePalabra(lector, DECENAS[n / 10], 10 * (n / 10));
      if n % 10 != 0 {
        LeePalabra(lector, UNIDADES[n % 10], n % 10);
        LeePalabra(lector, "Y", 0);
        LeeUnion(lector, DECENAS[n / 10], 10 * (n / 10), "Y", 0);
        LeeUnion(lector, Con(DECENAS[n / 10], "Y"), 10 * (n / 10), UNIDADES[n % 10], n % 10);
      }
    }
  }

  /** The parts of a number between 1 and 999 that is not one hundred. */
  lemma {:induction false} PartesDeMil(n: nat)
    requires 0 < n < 1000 && n != 100
    ensures var c, r := n / 100, n % 100;
      MenorAMil(n) == if c == 0 then MenorACien(r) else if r == 0 then CENTENAS[c] else Con(CENTENAS[c], MenorACien(r))
  {
    var c, r := n / 100, n % 100;
    var pc := if c > 0 then [Centena(c)] else [];
    var pr := if r > 0 then [MenorACien(r)] else [];
    if c > 0 && r > 0 {
      assert pc + pr == [CENTENAS[c], MenorACien(r)];
      UnirDos(CENTENAS[c], MenorACien(r));
    } else {
      assert pc + pr == if c > 0 then [CENTENAS[c]] else [MenorACien(r)];
    }
  }

  lemma {:induction false} MilLee(lector: Lector, n: nat)
    requires SabeSumar(lector) && 0 < n < 1000
    ensures Lee(lector, MenorAMil(n), n)
  {
    var c, resto := n / 100, n % 100;
    if n == 100 {
      LeePalabra(lector, "CIEN", 100);
    } else {
      PartesDeMil(n);
      if c > 0 {
        LeePalabra(lector, CENTENAS[c], 100 * c);
      }
      if resto > 0 {
        CienLee(lector, resto);
      }
      if c > 0 && resto > 0 {
        LeeUnion(lector, CENTENAS[c], 100 * c, MenorACien(resto), resto);
      }
    }
  }

  lemma {:induction false} UnirDos(a: string, b: string)
    ensures Unir([a, b]) == Con(a, b)
  {
    assert [a, b][..1] == [a];
  }

  // ------------------------------------------------------------------ no spaces at the ends

  predicate SinBordes(s: string) {
    |s| > 0 && s[0] != ' ' && s[|s| - 1] != ' '
  }

  lemma {:induction false} CienSinBordes(n: nat)
    requires 0 < n < 100
    ensures SinBordes(MenorACien(n))
  {
    if n < 10 {
      UnidadVale(n);
    } else if n < 30 {
      EspecialVale(n - 10);
    } else {
      DecenaVale(n / 10);
      if n % 10 != 0 {
        UnidadVale(n % 10);
      }
    }
  }

  lemma {:induction false} MilSinBordes(n: nat)
    requires 0 < n < 1000
    ensures SinBordes(MenorAMil(n))
  {
    if n != 100 {
      PartesDeMil(n);
      if n / 100 > 0 {
        CentenaVale(n / 100);
      }
      if n % 100 > 0 {
        CienSinBordes(n % 100);
      }
    }
  }

  // ------------------------------------------------------------------ whole amounts

  /** The words read as n more in total, and close their group. */
  ghost predicate CierraN(lector: Lector, ws: seq<string>, n: nat) {
    forall t: nat :: Leer(ws, Leyendo(t, 0), lector) == Leyendo(t + n, 0)
  }

  ghost predicate LeeGrupo(lector: Lector, s: string, n: nat) {
    SinBordes(s) && CierraN(lector, Separar(s), n)
  }

  lemma {:induction false} CierraNUnion(lector: Lector, p: seq<string>, x: nat, q: seq<string>, y: nat)
    requires CierraN(lector, p, x) && CierraN(lector, q, y)
    ensures CierraN(lector, p + q, x + y)
  {
    forall t: nat ensures Leer(p + q, Leyendo(t, 0), lector) == Leyendo(t + (x + y), 0) {
      LeerConcat(p, q, Leyendo(t, 0), lector);
      assert Leer(p, Leyendo(t, 0), lector) == Leyendo(t + x, 0);
      assert Leer(q, Leyendo(t + x, 0), lector) == Leyendo(t + x + y, 0);
    }
  }

  /** A number below a thousand followed by the word that closes its group. */
  lemma {:induction false} TextoCierra(lector: Lector, a: string, m: nat, w: string, factor: nat)
    requires Lee(lector, a, m) && SinBordes(a) && m > 0 && Cierra(lector, w, factor) && |w| > 0
    ensures LeeGrupo(lector, Con(a, w), m * factor)
  {
    SepararUnion(a, w);
    SepararUna(w);
    forall t: nat ensures Leer(Separar(a) + [w], Leyendo(t, 0), lector) == Leyendo(t + m * factor, 0) {
      LeerConcat(Separar(a), [w], Leyendo(t, 0), lector);
      assert Leer(Separar(a), Leyendo(t, 0), lector) == Leyendo(t, 0 + m);
    }
  }

  lemma {:induction false} MillonesLee(lector: Lector, m: nat)
    requires SabeSumar(lector) && SabeCerrar(lector) && 0 < m < 1000
    ensures LeeGrupo(lector, TextoMillones(m), m * 1000000)
  {
    if m == 1 {
      LeePalabra(lector, "UN", 1);
      TextoCierra(lector, "UN", 1, "MILLON", 1000000);
    } else {
      MilLee(lector, m);
      MilSinBordes(m);
      TextoCierra(lector, MenorAMil(m), m, "MILLONES", 1000000);
    }
  }

  lemma {:induction false} MilesLee(lector: Lector, m: nat)
    requires SabeSumar(lector) && SabeCerrar(lector) && 0 < m < 1000
    ensures LeeGrupo(lector, TextoMiles(m), m * 1000)
  {
    if m == 1 {
      SepararUna("MIL");
      forall t: nat ensures Leer(["MIL"], Leyendo(t, 0), lector) == Leyendo(t + 1000, 0) {
      }
    } else {
      MilLee(lector, m);
      MilSinBordes(m);
      TextoCierra(lector, MenorAMil(m), m, "MIL", 1000);
    }
  }

  lemma {:induction false} LeeGrupoUnion(lector: Lector, a: string, x: nat, b: string, y: nat)
    requires LeeGrupo(lector, a, x) && LeeGrupo(lector, b, y)
    ensures LeeGrupo(lector, Con(a, b), x + y)
  {
    SepararUnion(a, b);
    CierraNUnion(lector, Separar(a), x, Separar(b), y);
  }

  /** The words read as the whole amount n. */
  ghost predicate EnteroN(lector: Lector, ws: seq<string>, n: nat) {
    var e := Leer(ws, Leyendo(0, 0), lector);
    e.Leyendo? && e.total + e.grupo == n
  }

  ghost predicate LeeEntero(lector: Lector, s: string, n: nat) {
    SinBordes(s) && EnteroN(lector, Separar(s), n)
  }

  lemma {:induction false} AltosYRestoN(lector: Lector, p: seq<string>, x: nat, q: seq<string>, y: nat)
    requires CierraN(lector, p, x) && LeeN(lector, q, y)
    ensures EnteroN(lector, p + q, x + y)
  {
    LeerConcat(p, q, Leyendo(0, 0), lector);
    assert Leer(p, Leyendo(0, 0), lector) == Leyendo(0 + x, 0);
    assert Leer(q, Leyendo(x, 0), lector) == Leyendo(x, 0 + y);
  }

  /** The thousands and millions, if any, and then the rest, if any. */
  lemma {:induction false} AltosYResto(lector: Lector, altos: seq<string>, x: nat, resto: nat)
    requires SabeSumar(lector) && resto < 1000
    requires if |altos| == 0 then x == 0 && resto > 0 else LeeGrupo(lector, Unir(altos), x)
    ensures EnteroN(lector, Separar(RecortarFin(RecortarInicio(Unir(altos + (if resto > 0 then [MenorAMil(resto)] else []))))), x + resto)
  {
    PartesLeen(lector, altos, x, resto);
  }

  lemma {:induction false} PartesLeen(lector: Lector, altos: seq<string>, x: nat, resto: nat)
    requires SabeSumar(lector) && resto < 1000
    requires if |altos| == 0 then x == 0 && resto > 0 else LeeGrupo(lector, Unir(altos), x)
    ensures LeeEntero(lector, Unir(altos + (if resto > 0 then [MenorAMil(resto)] else [])), x + resto)
  {
    if resto == 0 {
      assert altos + [] == altos;
      assert Leer(Separar(Unir(altos)), Leyendo(0, 0), lector) == Leyendo(0 + x, 0);
    } else {
      MilLee(lector, resto);
      MilSinBordes(resto);
      var r := MenorAMil(resto);
      if |altos| == 0 {
        assert altos + [r] == [r];
        assert Leer(Separar(r), Leyendo(0, 0), lector) == Leyendo(0, 0 + resto);
      } else {
        SepararUnion(Unir(altos), r);
        AltosYRestoN(lector, Separar(Unir(altos)), x, Separar(r), resto);
      }
    }
  }

  /** The text of the thousands and millions of a number. */
  function Altos(n: nat): seq<string> {
    (if n / 1000000 > 0 then [TextoMillones(n / 1000000)] else [])
    + (if n % 1000000 / 1000 > 0 then [TextoMiles(n % 1000000 / 1000)] else [])
  }

  lemma {:induction false} AltosLeen(lector: Lector, n: nat)
    requires SabeSumar(lector) && SabeCerrar(lector) && 1000 <= n < 1000000000
    ensures |Altos(n)| > 0 && LeeGrupo(lector, Unir(Altos(n)), n / 1000 * 1000)
  {
    var millones, miles := n / 1000000, n % 1000000 / 1000;
    var x, y := millones * 1000000, miles * 1000;
    assert x + y == n / 1000 * 1000;
    if millones == 0 {
      MilesLee(lector, miles);
      assert Altos(n) == [TextoMiles(miles)];
    } else if miles == 0 {
      MillonesLee(lector, millones);
      assert Altos(n) == [TextoMillones(millones)];
    } else {
      MilesLee(lector, miles);
      MillonesLee(lector, millones);
      LeeGrupoUnion(lector, TextoMillones(millones), x, TextoMiles(miles), y);
      UnirDos(TextoMillones(millones), TextoMiles(miles));
      assert Altos(n) == [TextoMillones(millones), TextoMiles(miles)];
    }
  }

  lemma {:induction false} EnteroLee(lector: Lector, n: nat)
    requires SabeSumar(lector) && SabeCerrar(lector) && n < 1000000000
    ensures EnteroN(lector, Separar(EnteroALetras(n)), n)
  {
    if n == 0 {
      LeePalabra(lector, "CERO", 0);
      assert Leer(Separar("CERO"), Leyendo(0, 0), lector) == Leyendo(0, 0 + 0);
    } else {
      if n >= 1000 {
        AltosLeen(lector, n);
      } else {
        assert Altos(n) == [];
      }
      AltosYResto(lector, Altos(n), n / 1000 * 1000, n % 1000);
    }
  }

  // ------------------------------------------------------------------ digits

  ghost predicate TodoDigitos(s: string) {
    forall i :: 0 <= i < |s| ==> EsDigito(s[i])
  }

  lemma {:induction false} DigitosAgrega(s: string, c: char, previo: nat)
    requires TodoDigitos(s) && EsDigito(c)
    ensures Digitos(s + [c], previo) == Digitos(s, previo) * 10 + (c as int - '0' as int)
  {
    if |s| == 0 {
      assert (s + [c])[1..] == [];
    } else {
      assert (s + [c])[1..] == s[1..] + [c];
      DigitosAgrega(s[1..], c, previo * 10 + (s[0] as int - '0' as int));
    }
  }

  lemma {:induction false} DecimalDigitos(n: nat)
    ensures TodoDigitos(Decimal(n)) && |Decimal(n)| > 0 && Digitos(Decimal(n), 0) == n
  {
    if n >= 10 {
      DecimalDigitos(n / 10);
      DigitosAgrega(Decimal(n / 10), Cifra(n % 10), 0);
    } else {
      assert [Cifra(n)][1..] == [];
    }
  }

  lemma {:induction false} PartirEnPunto(a: string, b: string)
    requires TodoDigitos(a) && TodoDigitos(b)
    ensures AntesDelPunto(a + "." + b) == a && TrasElPunto(a + "." + b) == b
  {
    var s := a + "." + b;
    if |a| == 0 {
      assert s[1..] == b;
      SinPunto(b);
    } else {
      assert s[1..] == a[1..] + "." + b;
      PartirEnPunto(a[1..], b);
      assert [a[0]] + a[1..] == a;
    }
  }

  lemma {:induction false} SinPunto(s: string)
    requires TodoDigitos(s)
    ensures AntesDelPunto(s) == s
  {
    if |s| > 0 {
      SinPunto(s[1..]);
      assert [s[0]] + s[1..] == s;
    }
  }

  // ------------------------------------------------------------------ the round trip

  lemma {:induction false} ListoQueda(lector: Lector, ws: seq<string>, centimos: nat)
    requires forall x: nat, w :: lector(Listo(x), w) == Listo(x)
    ensures Leer(ws, Listo(centimos), lector) == Listo(centimos)
  {
    if |ws| > 0 {
      ListoQueda(lector, ws[..|ws| - 1], centimos);
    }
  }

  /** The words of a legend: SON, the amount, CON, the cents and the currency. */
  lemma {:induction false} PalabrasSeLeen(lector: Lector, son: string, entero: seq<string>, n: nat, con: string, cc: string, moneda: seq<string>)
    requires SabeTerminar(lector, son, con) && EnteroN(lector, entero, n)
    ensures Leer([son] + (entero + ([con] + ([cc] + moneda))), Leyendo(0, 0), lector) == Listo(n * 100 + DosDigitos(cc))
  {
    var inicio, leido := Leyendo(0, 0), Leer(entero, Leyendo(0, 0), lector);
    LeerConcat([son], entero + ([con] + ([cc] + moneda)), inicio, lector);
    assert lector(inicio, son) == Leyendo(0, 0 + 0);
    LeerConcat(entero, [con] + ([cc] + moneda), inicio, lector);
    LeerConcat([con], [cc] + moneda, leido, lector);
    LeerConcat([cc], moneda, Centavos(n), lector);
    ListoQueda(lector, moneda, n * 100 + DosDigitos(cc));
  }

  lemma {:induction false} SepararLeyenda(son: string, e: string, con: string, cc: string, m: string)
    requires SinEspacios(son) && SinEspacios(con) && SinEspacios(cc)
    ensures Separar(Con(son, Con(e, Con(con, Con(cc, m))))) == [son] + (Separar(e) + ([con] + ([cc] + Separar(m))))
  {
    SepararUnion(son, Con(e, Con(con, Con(cc, m))));
    SepararUnion(e, Con(con, Con(cc, m)));
    SepararUnion(con, Con(cc, m));
    SepararUnion(cc, m);
    SepararUna(son);
    SepararUna(con);
    SepararUna(cc);
  }

  lemma {:induction false} FraseSeLee(lector: Lector, e: string, n: nat, d: nat, u: nat, m: string)
    requires SabeTerminar(lector, "SON", "CON") && EnteroN(lector, Separar(e), n) && d < 10 && u < 10
    ensures Leer(Separar(Frase(e, [Cifra(d), Cifra(u)], m)), Leyendo(0, 0), lector) == Listo(n * 100 + (d * 10 + u))
  {
    var cc := [Cifra(d), Cifra(u)] + "/100";
    SepararLeyenda("SON", e, "CON", cc, m);
    PalabrasSeLeen(lector, "SON", Separar(e), n, "CON", cc, Separar(m));
  }

  lemma {:induction false} LeyendaPartes(centimos: nat, moneda: string)
    ensures Leyenda(centimos, moneda)
         == Frase(EnteroALetras(centimos / 100), [Cifra(centimos % 100 / 10), Cifra(centimos % 10)], NombreMoneda(moneda))
  {
    var entero, dos := Decimal(centimos / 100), [Cifra(centimos % 100 / 10), Cifra(centimos % 10)];
    DecimalDigitos(centimos / 100);
    PartirEnPunto(entero, dos);
    assert ConDosDecimales(centimos) == entero + "." + dos;
    assert Entero(entero) == centimos / 100;
    assert DosCifras(dos) == dos;
  }

  lemma {:induction false} TextoSeLee(lector: Lector, centimos: nat, e: string, m: string, s: string)
    requires SabeTerminar(lector, "SON", "CON") && EnteroN(lector, Separar(e), centimos / 100)
    requires s == Frase(e, [Cifra(centimos % 100 / 10), Cifra(centimos % 10)], m)
    ensures Leer(Separar(s), Leyendo(0, 0), lector) == Listo(centimos)
  {
    FraseSeLee(lector, e, centimos / 100, centimos % 100 / 10, centimos % 10, m);
  }

  /** Any reader that knows the words recovers the amount of any legend below one thousand million. */
  lemma {:induction false} LectorLee(lector: Lector, centimos: nat, moneda: string)
    requires SabeSumar(lector) && SabeCerrar(lector) && SabeTerminar(lector, "SON", "CON")
    requires centimos / 100 < 1000000000
    ensures Leer(Separar(Leyenda(centimos, moneda)), Leyendo(0, 0), lector) == Listo(centimos)
  {
    EnteroLee(lector, centimos / 100);
    LeyendaPartes(centimos, moneda);
    TextoSeLee(lector, centimos, EnteroALetras(centimos / 100), NombreMoneda(moneda), Leyenda(centimos, moneda));
  }

  lemma {:induction false} DiccionarioSuma(w: string, n: nat)
    requires SinEspacios(w) && Vale(w) == Some(n)
    ensures Suma(Diccionario(), w, n)
  {
  }

  lemma {:induction false} UnidadVale(n: nat)
    requires 1 <= n < 10
    ensures SinEspacios(UNIDADES[n]) && Vale(UNIDADES[n]) == Some(n)
  {
  }

  lemma {:induction false} EspecialVale(i: nat)
    requires i < 20
    ensures SinEspacios(ESPECIALES[i]) && Vale(ESPECIALES[i]) == Some(10 + i)
  {
    assert SinEspacios(ESPECIALES[i]);
    if i < 10 {
      assert Vale(ESPECIALES[i]) == Some(10 + i);
    } else {
      assert Vale(ESPECIALES[i]) == Some(10 + i);
    }
  }

  lemma {:induction false} DecenaVale(d: nat)
    requires 3 <= d < 10
    ensures SinEspacios(DECENAS[d]) && Vale(DECENAS[d]) == Some(10 * d)
  {
    assert SinEspacios(DECENAS[d]);
  }

  lemma {:induction false} CentenaVale(c: nat)
    requires 1 <= c < 10
    ensures SinEspacios(CENTENAS[c]) && Vale(CENTENAS[c]) == Some(100 * c)
  {
    assert SinEspacios(CENTENAS[c]);
  }

  lemma {:induction false} DiccionarioSabeSumar()
    ensures SabeSumar(Diccionario())
  {
    DiccionarioSuma("Y", 0);
    DiccionarioSuma("CERO", 0);
    DiccionarioSuma("UN", 1);
    DiccionarioSuma("CIEN", 100);
    forall n | 1 <= n < 10 ensures Suma(Diccionario(), UNIDADES[n], n) {
      UnidadVale(n);
      DiccionarioSuma(UNIDADES[n], n);
    }
    forall i | 0 <= i < 20 ensures Suma(Diccionario(), ESPECIALES[i], 10 + i) {
      EspecialVale(i);
      DiccionarioSuma(ESPECIALES[i], 10 + i);
    }
    forall d | 3 <= d < 10 ensures Suma(Diccionario(), DECENAS[d], 10 * d) {
      DecenaVale(d);
      DiccionarioSuma(DECENAS[d], 10 * d);
    }
    forall c | 1 <= c < 10 ensures Suma(Diccionario(), CENTENAS[c], 100 * c) {
      CentenaVale(c);
      DiccionarioSuma(CENTENAS[c], 100 * c);
    }
  }

  lemma {:induction false} DiccionarioCierra(w: string, factor: nat)
    requires SinEspacios(w) && Vale(w) == None
    requires (w == "MIL" && factor == 1000) || (w != "MIL" && (w == "MILLON" || w == "MILLONES") && factor == 1000000)
    ensures Cierra(Diccionario(), w, factor)
  {
  }

  lemma {:induction false} DiccionarioSabeCerrar()
    ensures SabeCerrar(Diccionario())
  {
    assert Vale("MIL") == None && Vale("MILLON") == None && Vale("MILLONES") == None;
    DiccionarioCierra("MIL", 1000);
    DiccionarioCierra("MILLON", 1000000);
    DiccionarioCierra("MILLONES", 1000000);
  }

  lemma {:induction false} DiccionarioTermina(son: string, con: string)
    requires Suma(Diccionario(), son, 0) && SinEspacios(con) && Vale(con) == None && con == "CON"
    requires con != "MIL" && con != "MILLON" && con != "MILLONES"
    ensures SabeTerminar(Diccionario(), son, con)
  {
  }

  lemma {:induction false} DiccionarioSabeTerminar()
    ensures SabeTerminar(Diccionario(), "SON", "CON")
  {
    assert Vale("CON") == None && Vale("SON") == Some(0);
    assert SinEspacios("CON") && SinEspacios("SON");
    DiccionarioSuma("SON", 0);
    DiccionarioTermina("SON", "CON");
  }

  /** Reading the legend of any amount below one thousand million gives back the amount,
      whatever the currency. */
  lemma {:induction false} LeyendaSeLee(centimos: nat, moneda: string)
    requires centimos / 100 < 1000000000
    ensures LeerMonto(Leyenda(centimos, moneda)) == Some(centimos)
  {
    DiccionarioSabeSumar();
    DiccionarioSabeCerrar();
    DiccionarioSabeTerminar();
    LectorLee(Diccionario(), centimos, moneda);
  }

  /** So distinct amounts below one thousand million have distinct legends. */
  lemma {:induction false} LeyendasDistintas(a: nat, b: nat, moneda: string)
    requires a / 100 < 1000000000 && b / 100 < 1000000000 && a != b
    ensures Leyenda(a, moneda) != Leyenda(b, moneda)
  {
    LeyendaSeLee(a, moneda);
    LeyendaSeLee(b, moneda);
  }

  lemma {:induction false} MilesDeMillones(k: nat)
    requires 1 <= k
    ensures TextoMillones(k * 1000) == Con("", "MILLONES")
  {
    assert k * 1000 / 100 == k * 10 && k * 1000 % 100 == 0;
    assert [Centena(k * 10)] + [] == [""];
  }

  lemma {:induction false} EnteroDeMilMillones(k: nat)
    requires 1 <= k
    ensures EnteroALetras(k * 1000000000) == RecortarFin(RecortarInicio(Con("", "MILLONES")))
  {
    var n := k * 1000000000;
    assert n / 1000000 == k * 1000 && n % 1000000 == 0 && n % 1000 == 0;
    MilesDeMillones(k);
    var solo := [TextoMillones(k * 1000)];
    assert solo + [] + [] == solo;
  }

  lemma {:induction false} SinCentimos(n: nat)
    requires n % 100 == 0
    ensures [Cifra(n % 100 / 10), Cifra(n % 10)] == "00"
  {
    assert n % 10 == 0;
  }

  lemma {:induction false} LeyendaDeMilMillones(k: nat, moneda: string)
    requires k >= 1
    ensures Leyenda(k * 100000000000, moneda) == Frase(RecortarFin(RecortarInicio(Con("", "MILLONES"))), "00", NombreMoneda(moneda))
  {
    var n := k * 100000000000;
    EnteroDeMilMillones(k);
    assert n / 100 == k * 1000000000 && n % 100 == 0;
    SinCentimos(n);
    LeyendaPartes(n, moneda);
  }

  /** The bound is sharp: every whole number of thousands of millions prints alike. */
  lemma {:induction false} MilMillonesSeConfunden(j: nat, k: nat, moneda: string)
    requires j >= 1 && k >= 1
    ensures Leyenda(j * 100000000000, moneda) == Leyenda(k * 100000000000, moneda)
  {
    LeyendaDeMilMillones(j, moneda);
    LeyendaDeMilMillones(k, moneda);
  }
}
