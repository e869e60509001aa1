/** The mock data generator of the backend: synthetic `dim_contactos` rows
    (contacts) and `fact_contactos` rows (facts, one per touch of a contact),
    generated once and then served from module-level memory.

    Every random draw the generator makes is an input here: each contact has
    a `ContactDraw` record and each touch a `FactDraw` record whose fields are
    the values the random library returned, in the ranges the library
    guarantees. Dates are day numbers; `today` stands for `datetime.now()`. */
module MockData {
  import opened Wrappers
  import opened Text

  /** A calendar day as a day number (day 0 is 1970-01-01). */
  type Date = int

  const Medios: seq<string> := ["Google", "Facebook", "Email", "whatsapp", "Otras Redes Sociales", "Otros"]

  const Programas: seq<string> :=
    [ "MBA", "Derecho Corporativo", "Marketing Digital", "Ingeniería Industrial",
      "Psicología Organizacional", "Finanzas", "Administración de Empresas",
      "Comercio Internacional", "Data Science", "Inteligencia Artificial",
      "Gestión de Proyectos", "Recursos Humanos", "Contaduría Pública",
      "Comunicación", "Arquitectura" ]

  const Nombres: seq<string> :=
    [ "Juan Pérez", "María García", "Carlos López", "Ana Martínez", "Roberto Sánchez",
      "Laura Rodríguez", "Diego Fernández", "Camila Torres", "Andrés Ramírez", "Sofía Herrera",
      "Pablo Díaz", "Valentina Ruiz", "Sebastián Morales", "Isabella Vargas", "Mateo Castillo",
      "Luciana Flores", "Santiago Jiménez", "Daniela Rojas", "Tomás Aguilar", "Victoria Castro",
      "Nicolás Mendoza", "Gabriela Ortiz", "Emiliano Delgado", "Mariana Ríos", "Lucas Medina",
      "Catalina Guerrero", "Alejandro Peña", "Adriana Gutiérrez", "Fernando Silva", "Paola Navarro" ]

  const Agentes: seq<string> :=
    [ "AGOMEZ", "JRODRIGUEZ", "MMARTINEZ", "CFERNANDEZ", "LSANCHEZ",
      "PTORRES", "ADIAZ", "RRUIZ", "DMORALES", "EVARGAS",
      "SCASTILLO", "NFLORES", "VJIMENEZ", "FROJAS", "GAGUILAR" ]

  const NoContactado := "No Contactado"
  const Contactado := "Contactado"
  const Efectivo := "Contacto Efectivo"
  const Resultados: seq<string> := [NoContactado, Contactado, Efectivo]

  datatype BaseInfo = BaseInfo(iddatabase: nat, descripcion: string)

  const Bases: seq<BaseInfo> :=
    [ BaseInfo(188, "Uniandes - Posgrados"), BaseInfo(204, "Uniandes - Licenciaturas"),
      BaseInfo(207, "Uniandes - Diplomados"), BaseInfo(208, "Uniandes - Maestrías"),
      BaseInfo(209, "Uniandes - Educación Continua") ]

  datatype Subcategoria = Subcategoria(subcategoria: nat, categoria: nat, descripcion: string)

  const Subcategorias: seq<Subcategoria> :=
    [ Subcategoria(51, 3, "Interesado - Solicita info"), Subcategoria(55, 3, "Interesado - Agenda cita"),
      Subcategoria(56, 3, "Interesado - Solicita beca"), Subcategoria(33, 2, "Contactado - Buzón de voz"),
      Subcategoria(34, 2, "Contactado - No contesta"), Subcategoria(35, 2, "Contactado - Ocupado"),
      Subcategoria(2, 1, "No localizado"), Subcategoria(116, 5, "Matriculado"),
      Subcategoria(71, 3, "Interesado - WhatsApp"), Subcategoria(83, 3, "Inscrito a evento") ]

  const Domains: seq<string> := ["gmail.com", "hotmail.com", "outlook.com", "yahoo.com"]

  const Motivos: seq<string> := ["Lead nuevo", "Rellamada", "Campaña", "Reactivación"]

  /** The number of contacts `get_contacts` generates. */
  const DefaultContacts := 1200

  /** The largest touch count a contact can draw. */
  const MaxTouches := 12

  // ---- strings of the generator ------------------------------------------------

  /** The name-to-address cleaning of `_random_email`: lower case, spaces become
      dots, and the five accented vowels lose their accent. */
  function CleanName(nombre: string): (clean: string)
    ensures |clean| == |nombre|
    ensures forall i :: 0 <= i < |clean| ==> clean[i] !in {' ', 'á', 'é', 'í', 'ó', 'ú'}
    ensures forall i :: 0 <= i < |clean| ==> !LatinCapital(clean[i])
    ensures forall i :: 0 <= i < |clean| ==> (clean[i] == '@' <==> nombre[i] == '@')
  {
    var s0 := Lower(nombre);
    var s1 := ReplaceChar(s0, ' ', '.');
    var s2 := ReplaceChar(s1, 'á', 'a');
    var s3 := ReplaceChar(s2, 'é', 'e');
    var s4 := ReplaceChar(s3, 'í', 'i');
    var s5 := ReplaceChar(s4, 'ó', 'o');
    ReplaceChar(s5, 'ú', 'u')
  }

  /** `_random_email`: the cleaned name, a number from 1 to 99, `@` and the
      chosen domain. */
  function RandomEmail(nombre: string, domain: string, num: nat): string
  {
    CleanName(nombre) + NatToString(num) + "@" + domain
  }

  /** For a name without `@`, the address has exactly one `@`; before it come the
      cleaned name and the number, after it the chosen domain. */
  lemma EmailShape(nombre: string, domain: string, num: nat)
    requires domain in Domains && forall i :: 0 <= i < |nombre| ==> nombre[i] != '@'
    ensures var e := RandomEmail(nombre, domain, num);
            var at := |CleanName(nombre)| + |NatToString(num)|;
            && at < |e| && e[at] == '@'
            && (forall i :: 0 <= i < |e| && i != at ==> e[i] != '@')
            && e[..at] == CleanName(nombre) + NatToString(num)
            && e[at + 1..] == domain
  {
    var c := CleanName(nombre);
    var d := NatToString(num);
    var dom := domain;
    var e := RandomEmail(nombre, domain, num);
    assert e == (c + d) + ("@" + dom);
    assert forall i :: 0 <= i < |d| ==> d[i] != '@' by {
      forall i | 0 <= i < |d| ensures d[i] != '@' { assert IsDigit(d[i]); }
    }
    assert forall i :: 0 <= i < |dom| ==> dom[i] != '@';
  }

  /** `_random_phone`: `+52 `, an area code and an eight-digit number. */
  function RandomPhone(area: nat, number: nat): (phone: string)
    ensures StartsWith(phone, "+52 ") && AllDigits(phone[4..])
  {
    var a := NatToString(area);
    var b := NatToString(number);
    assert (a + b)[..|a|] == a && (a + b)[|a|..] == b;
    "+52 " + (a + b)
  }

  // ---- contacts ------------------------------------------------------------------

  /** The draws one iteration of `generate_contacts` makes, by purpose: the
      element `random.choice` or `random.choices` picked, or the number
      `random.randint` or `random.random` returned. */
  datatype ContactDraw = ContactDraw(
    nombre: string, resultado: string, medio: string, base: BaseInfo, fechaDaysAgo: nat, toques: nat,
    matriculaRoll: real, emailDomain: string, emailNum: nat, phoneArea: nat, phoneNumber: nat,
    lote: nat, loteDaysAgo: nat, descripSubcat: Subcategoria, ultGestionDaysAgo: nat,
    whatsappRoll: real, whatsappArea: nat, whatsappNumber: nat,
    programa: string, carrera: string, ultimaSubcat: Subcategoria)

  predicate IsResultado(r: string)
  {
    r == NoContactado || r == Contactado || r == Efectivo
  }

  /** The ranges `random.choices`, `random.randint` and `random.random`
      guarantee for the drawn result and numbers. */
  predicate ValidContactDraw(d: ContactDraw)
  {
    && IsResultado(d.resultado)
    && 1 <= d.fechaDaysAgo <= 300 && 1 <= d.toques <= MaxTouches
    && 0.0 <= d.matriculaRoll < 1.0 && 1 <= d.emailNum <= 99
    && 55 <= d.phoneArea <= 99 && 10000000 <= d.phoneNumber <= 99999999
    && 1 <= d.lote <= 20 && 10 <= d.loteDaysAgo <= 350
    && d.ultGestionDaysAgo <= 60 && 0.0 <= d.whatsappRoll < 1.0
    && 55 <= d.whatsappArea <= 99 && 10000000 <= d.whatsappNumber <= 99999999
  }

  /** The chosen elements come from the generator's fixed lists. */
  predicate FromLists(d: ContactDraw)
  {
    && d.nombre in Nombres && d.resultado in Resultados && d.medio in Medios && d.base in Bases
    && d.emailDomain in Domains && d.descripSubcat in Subcategorias
    && d.programa in Programas && d.carrera in Programas && d.ultimaSubcat in Subcategorias
  }

  /** One `dim_contactos` row. `fecha_ult_gestion`, `fecha_a_utilizar` and
      `telwhatsapp` may be NULL; `_is_matriculado` is the generator's own flag. */
  datatype Contact = Contact(
    idinterno: string, medio: string, nombre: string, email: string, telefono: string,
    fechaInsercion: Date, base: string, lote: string, iddatabase: string,
    fechaCreacionLote: Date, descripSubcat: string, descripCat: string,
    fechaUltGestion: Option<Date>, fechaAUtilizar: Option<Date>,
    subcatNum: string, subcatString: string, toques: string, resultado: string,
    telWhatsapp: Option<string>, programaInteres: string, carreraInteres: string,
    criterioCliente: string, ultimaSubcategoria: string, isMatriculado: bool)

  /** The touch count of `generate_contacts`: none for an uncontacted lead. */
  function TouchCount(resultado: string, d: ContactDraw): nat
  {
    if resultado == NoContactado then 0 else d.toques
  }

  /** The numeric best-result category: 2, 1 or 0. */
  function SubcatNum(resultado: string): nat
  {
    if resultado == Efectivo then 2 else if resultado == Contactado then 1 else 0
  }

  function SubcatLabel(num: nat): string
  {
    if num == 2 then "Interesado" else if num == 1 then "Contactado" else "Sin gestión"
  }

  /** Contact number `i` (counting from 1) built from its draws. */
  function MakeContact(i: nat, d: ContactDraw, today: Date): Contact
    requires ValidContactDraw(d)
  {
    var nombre := d.nombre;
    var resultado := d.resultado;
    var base := d.base;
    var fecha := today - d.fechaDaysAgo;
    var toques := TouchCount(resultado, d);
    var subcat := SubcatNum(resultado);
    Contact(
      NatToString(100000 + i), d.medio, nombre,
      RandomEmail(nombre, d.emailDomain, d.emailNum), RandomPhone(d.phoneArea, d.phoneNumber),
      fecha, base.descripcion, "Lote " + NatToString(d.lote), NatToString(base.iddatabase),
      today - d.loteDaysAgo, d.descripSubcat.descripcion, "Gestión",
      if toques > 0 then Some(today - d.ultGestionDaysAgo) else None,
      Some(fecha),
      NatToString(subcat), SubcatLabel(subcat), NatToString(toques), resultado,
      if d.whatsappRoll > 0.3 then Some(RandomPhone(d.whatsappArea, d.whatsappNumber)) else None,
      d.programa, d.carrera,
      if resultado != NoContactado then "1" else "0",
      NatToString(d.ultimaSubcat.subcategoria),
      resultado == Efectivo && d.matriculaRoll < 0.25)
  }

  /** The parsed touch count of a contact (`int(c["toques"])`). */
  function Touches(c: Contact): nat
    requires AllDigits(c.toques)
  {
    ParseNat(c.toques)
  }

  /** The rules that tie the fields of a generated contact together. */
  predicate Consistent(c: Contact)
  {
    && IsResultado(c.resultado)
    && AllDigits(c.toques)
    && (Touches(c) == 0 <==> c.resultado == NoContactado)
    && Touches(c) <= MaxTouches
    && (c.fechaUltGestion.None? <==> Touches(c) == 0)
    && (c.isMatriculado ==> c.resultado == Efectivo)
    && c.subcatNum == NatToString(SubcatNum(c.resultado))
    && c.subcatString == SubcatLabel(SubcatNum(c.resultado))
    && (c.criterioCliente == "1" <==> c.resultado != NoContactado)
    && (c.criterioCliente == "0" <==> c.resultado == NoContactado)
    && c.fechaAUtilizar == Some(c.fechaInsercion)
  }

  lemma {:induction false} MakeContactConsistent(i: nat, d: ContactDraw, today: Date)
    requires ValidContactDraw(d)
    ensures Consistent(MakeContact(i, d, today))
    ensures MakeContact(i, d, today).idinterno == NatToString(100000 + i)
    ensures var c := MakeContact(i, d, today);
            c.subcatNum == (if c.resultado == Efectivo then "2" else if c.resultado == Contactado then "1" else "0")
  {
    var c := MakeContact(i, d, today);
    var t := TouchCount(d.resultado, d);
    ParseNatToString(t);
    assert c.toques == NatToString(t);
    assert NatToString(2) == "2" && NatToString(1) == "1" && NatToString(0) == "0";
  }

  /** What `generate_contacts(n)` returns for the draws `draws`. */
  function Contacts(n: nat, draws: seq<ContactDraw>, today: Date): (cs: seq<Contact>)
    requires |draws| >= n && forall i :: 0 <= i < n ==> ValidContactDraw(draws[i])
    ensures |cs| == n
  {
    seq(n, i requires 0 <= i < n => MakeContact(i + 1, draws[i], today))
  }

  predicate ValidDraws(n: nat, draws: seq<ContactDraw>)
  {
    |draws| >= n && forall i :: 0 <= i < n ==> ValidContactDraw(draws[i])
  }

  /** `generate_contacts`: one contact per iteration, appended in order. */
  method GenerateContacts(n: nat, draws: seq<ContactDraw>, today: Date) returns (contacts: seq<Contact>)
    requires ValidDraws(n, draws)
    ensures contacts == Contacts(n, draws, today)
  {
    contacts := [];
    var i := 1;
    while i < n + 1
      invariant 1 <= i <= n + 1
      invariant contacts == Contacts(i - 1, draws, today)
    {
      contacts := contacts + [MakeContact(i, draws[i - 1], today)];
      i := i + 1;
    }
  }

  /** Contact `i` of the generated list is consistent and carries the id
      `100000 + i + 1`. */
  lemma ContactAt(n: nat, draws: seq<ContactDraw>, today: Date, i: nat)
    requires ValidDraws(n, draws) && i < n
    ensures Consistent(Contacts(n, draws, today)[i])
    ensures Contacts(n, draws, today)[i].idinterno == NatToString(100000 + i + 1)
  {
    var c := MakeContact(i + 1, draws[i], today);
    MakeContactConsistent(i + 1, draws[i], today);
    assert Contacts(n, draws, today)[i] == c;
  }

  /** The generated contacts are numbered `100001` .. `100000+n` in order. */
  lemma ContactIds(n: nat, draws: seq<ContactDraw>, today: Date)
    requires ValidDraws(n, draws)
    ensures forall i :: 0 <= i < n ==> Contacts(n, draws, today)[i].idinterno == NatToString(100000 + i + 1)
  {
    forall i | 0 <= i < n
      ensures Contacts(n, draws, today)[i].idinterno == NatToString(100000 + i + 1)
    {
      ContactAt(n, draws, today, i);
    }
  }

  /** Every generated contact satisfies the consistency rules. */
  lemma ContactsConsistent(n: nat, draws: seq<ContactDraw>, today: Date)
    requires ValidDraws(n, draws)
    ensures forall i :: 0 <= i < n ==> Consistent(Contacts(n, draws, today)[i])
  {
    forall i | 0 <= i < n
      ensures Consistent(Contacts(n, draws, today)[i])
    {
      ContactAt(n, draws, today, i);
    }
  }

  /** No two generated contacts share an id. */
  lemma ContactIdsDistinct(n: nat, draws: seq<ContactDraw>, today: Date)
    requires ValidDraws(n, draws)
    ensures forall i, j :: 0 <= i < j < n ==> Contacts(n, draws, today)[i].idinterno != Contacts(n, draws, today)[j].idinterno
  {
    var cs := Contacts(n, draws, today);
    ContactIds(n, draws, today);
    forall i, j | 0 <= i < j < n
      ensures cs[i].idinterno != cs[j].idinterno
    {
      NatToStringInjective(100000 + i + 1, 100000 + j + 1);
    }
  }

  // ---- facts -----------------------------------------------------------------------

  /** The draws of one touch in `generate_fact_contactos`. */
  datatype FactDraw = FactDraw(
    gestionDays: nat, agente: string, subcat: Subcategoria, idllamada: nat, idventa: nat, campania: nat,
    rellamarRoll: real, usuarioRoll: real, rellamarDaysAgo: nat, motivo: string)

  predicate ValidFactDraw(d: FactDraw)
  {
    && 1 <= d.gestionDays <= 60
    && 1000000 <= d.idllamada <= 9999999 && 1 <= d.idventa <= 999 && 1 <= d.campania <= 8
    && 0.0 <= d.rellamarRoll < 1.0 && 0.0 <= d.usuarioRoll < 1.0
    && d.rellamarDaysAgo <= 30
  }

  predicate FactFromLists(d: FactDraw)
  {
    d.agente in Agentes && d.subcat in Subcategorias && d.motivo in Motivos
  }

  /** One `fact_contactos` row; `fecha` is the day of the call. `rellamar`
      is the call-back date, `None` where the generator stores the empty
      string. */
  datatype Fact = Fact(
    dedupKey: string, idinterno: string, idllamada: string, fecha: Date, idventa: string,
    campania: string, iddatabase: string, subcategoria: string, usuario: string,
    usuarioRellamar: string, rellamar: Option<Date>, motivoTraida: string)

  /** The deduplication key of touch `t` of contact `id`. */
  function DedupKey(id: string, t: nat): string
  {
    "mock_" + id + "_" + NatToString(t)
  }

  /** Touch `t` of contact `c`, of `toques` touches in all. */
  function MakeFact(c: Contact, toques: nat, t: nat, d: FactDraw, today: Date): Fact
    requires ValidFactDraw(d)
  {
    var agente := d.agente;
    var hasVenta := c.isMatriculado && t == toques - 1;
    Fact(
      DedupKey(c.idinterno, t), c.idinterno, NatToString(d.idllamada),
      c.fechaInsercion + d.gestionDays,
      if hasVenta then NatToString(d.idventa) else "0",
      "Camp_" + NatToString(d.campania), c.iddatabase,
      NatToString(d.subcat.subcategoria), agente,
      if d.usuarioRoll > 0.7 then agente else "",
      if d.rellamarRoll > 0.8 then Some(today - d.rellamarDaysAgo) else None,  // `None` is the empty string
      d.motivo)
  }

  /** Touch draws for every contact: enough of them, each in range. */
  predicate ValidFactDraws(cs: seq<Contact>, draws: seq<seq<FactDraw>>)
  {
    && (forall i :: 0 <= i < |cs| ==> AllDigits(cs[i].toques))
    && |draws| >= |cs|
    && (forall i :: 0 <= i < |cs| ==> |draws[i]| >= Touches(cs[i]))
    && (forall i, t :: 0 <= i < |cs| && 0 <= t < |draws[i]| ==> ValidFactDraw(draws[i][t]))
  }

  /** The facts of one contact, one per touch. */
  function ContactFacts(c: Contact, ds: seq<FactDraw>, today: Date): (fs: seq<Fact>)
    requires AllDigits(c.toques) && |ds| >= Touches(c)
    requires forall t :: 0 <= t < |ds| ==> ValidFactDraw(ds[t])
    ensures |fs| == Touches(c)
  {
    seq(Touches(c), t requires 0 <= t < Touches(c) => MakeFact(c, Touches(c), t, ds[t], today))
  }

  /** What `generate_fact_contactos(contacts)` returns for the draws `draws`. */
  function FactsOf(cs: seq<Contact>, draws: seq<seq<FactDraw>>, today: Date): seq<Fact>
    requires ValidFactDraws(cs, draws)
    decreases |cs|
  {
    if |cs| == 0 then []
    else
      var k := |cs| - 1;
      FactsOf(cs[..k], draws, today) + ContactFacts(cs[k], draws[k], today)
  }

  /** The total number of touches of the contacts. */
  function SumTouches(cs: seq<Contact>): nat
    requires forall i :: 0 <= i < |cs| ==> AllDigits(cs[i].toques)
    decreases |cs|
  {
    if |cs| == 0 then 0 else SumTouches(cs[..|cs| - 1]) + Touches(cs[|cs| - 1])
  }

  /** The inner loop of `generate_fact_contactos`: the facts of one contact,
      one per touch, in touch order. */
  method TouchFacts(c: Contact, ds: seq<FactDraw>, today: Date) returns (fs: seq<Fact>)
    requires AllDigits(c.toques) && |ds| >= Touches(c)
    requires forall t :: 0 <= t < |ds| ==> ValidFactDraw(ds[t])
    ensures fs == ContactFacts(c, ds, today)
  {
    var toques := ParseNat(c.toques);
    ghost var all := ContactFacts(c, ds, today);
    fs := [];
    var t := 0;
    while t < toques
      invariant 0 <= t <= toques
      invariant fs == all[..t]
    {
      assert all[..t + 1] == all[..t] + [MakeFact(c, toques, t, ds[t], today)];
      fs := fs + [MakeFact(c, toques, t, ds[t], today)];
      t := t + 1;
    }
    assert all[..t] == all;
  }

  /** `generate_fact_contactos`: for every contact, one fact per touch,
      appended in order. */
  method GenerateFacts(contacts: seq<Contact>, draws: seq<seq<FactDraw>>, today: Date)
    returns (facts: seq<Fact>)
    requires ValidFactDraws(contacts, draws)
    ensures facts == FactsOf(contacts, draws, today)
  {
    facts := [];
    var i := 0;
    while i < |contacts|
      invariant 0 <= i <= |contacts|
      invariant ValidFactDraws(contacts[..i], draws)
      invariant facts == FactsOf(contacts[..i], draws, today)
    {
      var cf := TouchFacts(contacts[i], draws[i], today);
      facts := facts + cf;
      assert contacts[..i + 1][..i] == contacts[..i];
      i := i + 1;
    }
    assert contacts[..i] == contacts;
  }

  /** Every contact contributes exactly its touch count: the number of facts is
      the sum of the touch counts. */
  lemma {:induction false} FactsCount(cs: seq<Contact>, draws: seq<seq<FactDraw>>, today: Date)
    requires ValidFactDraws(cs, draws)
    ensures |FactsOf(cs, draws, today)| == SumTouches(cs)
    decreases |cs|
  {
    if |cs| > 0 {
      var k := |cs| - 1;
      assert ValidFactDraws(cs[..k], draws);
      FactsCount(cs[..k], draws, today);
    }
  }

  /** Touch `t` of a contact carries the key `mock_<id>_<t>`, the contact's id
      and base, a call date 1 to 60 days after the lead's insertion, and a sale
      id other than "0" exactly on the last touch of an enrolled contact. */
  lemma ContactFactsShape(c: Contact, ds: seq<FactDraw>, today: Date, t: nat)
    requires AllDigits(c.toques) && |ds| >= Touches(c)
    requires forall j :: 0 <= j < |ds| ==> ValidFactDraw(ds[j])
    requires t < Touches(c)
    ensures var f := ContactFacts(c, ds, today)[t];
            && f.dedupKey == "mock_" + c.idinterno + "_" + NatToString(t)
            && f.idinterno == c.idinterno && f.iddatabase == c.iddatabase
            && c.fechaInsercion + 1 <= f.fecha <= c.fechaInsercion + 60
            && (f.idventa != "0" <==> c.isMatriculado && t == Touches(c) - 1)
  {
    var d := ds[t];
    NatToStringZero(d.idventa);
  }

  // ---- memoisation ------------------------------------------------------------------

  /** The module-level caches `_contacts` and `_facts`. */
  /** Cached contacts are the default number of consistent rows; cached facts
      exist only beside cached contacts and hold one row per touch. */
  ghost predicate Cached(contacts: Option<seq<Contact>>, facts: Option<seq<Fact>>)
  {
    && (contacts.Some? ==> |contacts.value| == DefaultContacts && forall i :: 0 <= i < |contacts.value| ==> Consistent(contacts.value[i]))
    && (facts.Some? ==> contacts.Some? && |facts.value| == SumTouches(contacts.value))
  }

  /** The facts generated from cached contacts can be cached beside them. */
  lemma FactsFit(cs: seq<Contact>, draws: seq<seq<FactDraw>>, today: Date)
    requires Cached(Some(cs), None)
    requires |draws| >= DefaultContacts
    requires forall i :: 0 <= i < DefaultContacts ==> |draws[i]| >= MaxTouches
    requires forall i, t :: 0 <= i < DefaultContacts && 0 <= t < |draws[i]| ==> ValidFactDraw(draws[i][t])
    ensures ValidFactDraws(cs, draws) && Cached(Some(cs), Some(FactsOf(cs, draws, today)))
  {
    FactsCount(cs, draws, today);
  }

  class MockStore {
    var contacts: Option<seq<Contact>>
    var facts: Option<seq<Fact>>

    ghost predicate Valid()
      reads this
    {
      Cached(contacts, facts)
    }

    constructor()
      ensures contacts.None? && facts.None? && Valid()
    {
      contacts := None;
      facts := None;
    }

    /** `get_contacts`: generate on the first call, then return the cached list. */
    method GetContacts(draws: seq<ContactDraw>, today: Date) returns (cs: seq<Contact>)
      requires Valid() && ValidDraws(DefaultContacts, draws)
      modifies this
      ensures Valid() && contacts == Some(cs) && facts == old(facts)
      ensures old(contacts).Some? ==> cs == old(contacts).value
      ensures old(contacts).None? ==> cs == Contacts(DefaultContacts, draws, today)
    {
      if contacts.None? {
        var generated := GenerateContacts(DefaultContacts, draws, today);
        ContactsConsistent(DefaultContacts, draws, today);
        contacts := Some(generated);
      }
      cs := contacts.value;
    }

    /** `get_facts`: generate from `get_contacts()` on the first call, then return
        the cached list. */
    method GetFacts(draws: seq<ContactDraw>, factDraws: seq<seq<FactDraw>>, today: Date) returns (fs: seq<Fact>)
      requires Valid() && ValidDraws(DefaultContacts, draws)
      requires |factDraws| >= DefaultContacts
      requires forall i :: 0 <= i < DefaultContacts ==> |factDraws[i]| >= MaxTouches
      requires forall i, t :: 0 <= i < DefaultContacts && 0 <= t < |factDraws[i]| ==> ValidFactDraw(factDraws[i][t])
      modifies this
      ensures Valid() && facts == Some(fs) && contacts.Some?
      ensures old(facts).Some? ==> fs == old(facts).value && contacts == old(contacts)
      ensures old(facts).None? ==> && ValidFactDraws(contacts.value, factDraws)
                                   && fs == FactsOf(contacts.value, factDraws, today)
      ensures old(contacts).Some? ==> contacts == old(contacts)
    {
      if facts.None? {
        var cs := GetContacts(draws, today);
        FactsFit(cs, factDraws, today);
        var generated := GenerateFacts(cs, factDraws, today);
        facts := Some(generated);
      }
      fs := facts.value;
    }
  }
}
