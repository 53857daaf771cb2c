/** Order e-mails to the admins (backend/services/emailService.js): the SMTP configuration check, the
    transporter created once and cached in a module variable, the recipient list (admins from the
    database, else the ADMIN_EMAILS variable), the item rows of the message, and when a message is
    skipped, sent or fails. SMTP delivery and the HTML markup are not modelled: a sent message is
    recorded with its envelope and rows. */
module EmailService {
  import opened Common
  import opened FoodCatalog
  import opened OrderModel

  /** The environment variables read; `""` stands for an unset variable. */
  datatype Env = Env(
    smtpHost: string,
    smtpPort: string,
    smtpUser: string,
    smtpPass: string,
    fromEmail: string,
    smtpSecure: string,
    adminEmails: string)

  /** `isEmailConfigured`: all five SMTP variables are non-empty. */
  predicate IsEmailConfigured(env: Env)
    ensures IsEmailConfigured(env) ==>
      TransporterFor(env).host != "" && TransporterFor(env).user != "" && TransporterFor(env).pass != ""
  {
    env.smtpHost != "" && env.smtpPort != "" && env.smtpUser != "" && env.smtpPass != "" && env.fromEmail != ""
  }

  const DefaultPort: int := 587

  /** `Number(SMTP_PORT) || 587`: the number the variable spells, unless that is 0 or not a number. */
  function SmtpPort(raw: string): (port: int)
    ensures port > 0
  {
    match ParseNumber(Trim(raw))
    case Some(n) => if n != 0 then n else DefaultPort
    case None => DefaultPort
  }

  lemma DigitsHaveNoSpace(s: string)
    requires forall i :: 0 <= i < |s| ==> IsDigit(s[i])
    ensures NoSpace(s)
  {
    forall i | 0 <= i < |s|
      ensures !IsSpace(s[i])
    {
      assert IsDigit(s[i]);
    }
  }

  /** A port written in decimal is used as written. */
  lemma SmtpPortAsWritten(n: nat)
    requires n > 0
    ensures SmtpPort(NatToString(n)) == n
  {
    var s := NatToString(n);
    DigitsHaveNoSpace(s);
    TrimNoSpace(s);
    ParseNatToString(n);
    SmtpPortOfNumber(s, n);
  }

  lemma SmtpPortOfNumber(s: string, n: nat)
    requires n > 0 && Trim(s) == s && ParseNumber(s) == Some(n)
    ensures SmtpPort(s) == n
  {
  }

  /** A blank port falls back to 587. */
  lemma SmtpPortBlank(raw: string)
    requires AllSpace(raw)
    ensures SmtpPort(raw) == DefaultPort
  {
    TrimEmptyIffAllSpace(raw);
    assert ParseNumber(Trim(raw)) == Some(0);
  }

  /** A character that occurs in some spelling `Number` reads: a digit, a sign, a decimal point, an
      exponent or radix letter, a hex digit, or a letter of "Infinity". */
  predicate NumberChar(c: char)
  {
    IsDigit(c) || c == '+' || c == '-' || c == '.' || c == 'x' || c == 'X' || c == 'o' || c == 'O' ||
    c == 'b' || c == 'B' || ('a' <= c <= 'f') || ('A' <= c <= 'F') ||
    c == 'I' || c == 'n' || c == 'i' || c == 't' || c == 'y'
  }

  /** A port that contains a character no spelling of a number can contain is not a number: 587. */
  lemma SmtpPortNotANumber(raw: string, i: int)
    requires 0 <= i < |raw| && !IsSpace(raw[i]) && !NumberChar(raw[i])
    ensures SmtpPort(raw) == DefaultPort
  {
    TrimKeepsNonSpace(raw, i);
    var t := Trim(raw);
    var k :| 0 <= k < |t| && t[k] == raw[i];
    assert !IsDigit(t[k]);
    assert ParseNumber(t) == None;
  }

  /** `String(SMTP_SECURE || '').toLowerCase() === 'true'`. */
  function Secure(raw: string): (b: bool)
    ensures b <==> |raw| == 4 && LowerChar(raw[0]) == 't' && LowerChar(raw[1]) == 'r' &&
                   LowerChar(raw[2]) == 'u' && LowerChar(raw[3]) == 'e'
  {
    ToLower(raw) == "true"
  }

  datatype Transporter = Transporter(host: string, port: int, secure: bool, user: string, pass: string)

  function TransporterFor(env: Env): Transporter
  {
    Transporter(env.smtpHost, SmtpPort(env.smtpPort), Secure(env.smtpSecure), env.smtpUser, env.smtpPass)
  }

  /** `.filter(Boolean)` on strings: drop the empty ones, keep the order. */
  function NonEmpty(xs: seq<string>): (r: seq<string>)
    ensures |r| <= |xs|
    ensures forall k :: 0 <= k < |r| ==> r[k] != ""
    ensures forall x :: x in r <==> x in xs && x != ""
  {
    if xs == [] then []
    else if xs[0] == "" then NonEmpty(xs[1..])
    else [xs[0]] + NonEmpty(xs[1..])
  }

  /** `.map(email => email.trim())`. */
  function TrimAll(xs: seq<string>): seq<string>
  {
    seq(|xs|, k requires 0 <= k < |xs| => Trim(xs[k]))
  }

  /** The ADMIN_EMAILS fallback: split on ',', trim each piece, drop the empty ones. */
  function EnvRecipients(raw: string): (r: seq<string>)
    ensures |r| <= |Split(raw, ',')|
    ensures ',' !in raw ==> r == if AllSpace(raw) then [] else [Trim(raw)]
  {
    assert ',' !in raw ==> TrimAll(Split(raw, ',')) == [Trim(raw)] by {
      if ',' !in raw {
        SplitWithoutSeparator(raw, ',');
      }
    }
    TrimEmptyIffAllSpace(raw);
    NonEmpty(TrimAll(Split(raw, ',')))
  }

  /** `getAdminRecipientEmails`: the non-empty admin e-mails found in the database, when there are any and
      the query succeeded; the ADMIN_EMAILS list otherwise. */
  function AdminRecipients(adminsInDb: Result<seq<string>>, raw: string): (r: seq<string>)
    ensures forall x :: x in r ==> x != ""
    ensures adminsInDb.Err? ==> r == EnvRecipients(raw)
  {
    if adminsInDb.Ok? && NonEmpty(adminsInDb.value) != [] then NonEmpty(adminsInDb.value) else EnvRecipients(raw)
  }

  /** Every address taken from ADMIN_EMAILS is non-empty, has no surrounding whitespace and no comma. */
  lemma EnvRecipientsClean(raw: string, r: string)
    requires r in EnvRecipients(raw)
    ensures r != "" && !IsSpace(r[0]) && !IsSpace(r[|r| - 1]) && ',' !in r
  {
    var pieces := Split(raw, ',');
    RecipientIsTrimmedPiece(raw, r);
    var k := TrimmedIndex(pieces, r);
    assert ',' !in pieces[k];
    TrimmedPieceClean(pieces[k]);
  }

  lemma RecipientIsTrimmedPiece(raw: string, r: string)
    requires r in EnvRecipients(raw)
    ensures r in TrimAll(Split(raw, ',')) && r != ""
  {
  }

  lemma TrimmedIndex(pieces: seq<string>, r: string) returns (k: int)
    requires r in TrimAll(pieces)
    ensures 0 <= k < |pieces| && r == Trim(pieces[k])
  {
    var trimmed := TrimAll(pieces);
    k :| 0 <= k < |trimmed| && trimmed[k] == r;
  }

  lemma TrimmedPieceClean(p: string)
    requires ',' !in p && Trim(p) != ""
    ensures var r := Trim(p); !IsSpace(r[0]) && !IsSpace(r[|r| - 1]) && ',' !in r
  {
    TrimKeepsCharacters(p);
  }

  /** Every piece of ADMIN_EMAILS that is not blank contributes its trimmed text. */
  lemma EnvRecipientsComplete(raw: string, p: string)
    requires p in Split(raw, ',') && !AllSpace(p)
    ensures Trim(p) in EnvRecipients(raw)
  {
    var pieces := Split(raw, ',');
    var trimmed := TrimAll(pieces);
    var k :| 0 <= k < |pieces| && pieces[k] == p;
    TrimEmptyIffAllSpace(p);
    assert trimmed[k] == Trim(p);
    assert Trim(p) in trimmed;
  }

  /** Whatever the source, no recipient is empty; a database that lists some admin e-mail decides alone. */
  lemma AdminRecipientsChoice(adminsInDb: Result<seq<string>>, raw: string)
    ensures forall r :: r in AdminRecipients(adminsInDb, raw) ==> r != ""
    ensures adminsInDb.Ok? && (exists e :: e in adminsInDb.value && e != "") ==>
      AdminRecipients(adminsInDb, raw) == NonEmpty(adminsInDb.value)
    ensures adminsInDb.Err? ==> AdminRecipients(adminsInDb, raw) == EnvRecipients(raw)
  {
    if adminsInDb.Ok? && (exists e :: e in adminsInDb.value && e != "") {
      var e :| e in adminsInDb.value && e != "";
      assert e in NonEmpty(adminsInDb.value);
    }
  }

  /** One row of the message's item table. */
  datatype EmailRow = EmailRow(name: string, qty: int, price: real, lineTotal: real)

  /** The row for an order line whose food was populated as `food` (None when it no longer exists):
      quantity defaults to 1, price to 0, name to 'Item'. */
  function RowFor(item: OrderItem, food: Option<Food>): (row: EmailRow)
    ensures row.qty == if item.quantity == 0 then 1 else item.quantity
    ensures row.price == if food.Some? then food.value.price else 0.0
    ensures row.lineTotal == row.price * row.qty as real
  {
    var qty := if item.quantity == 0 then 1 else item.quantity;
    var price := if food.Some? then food.value.price else 0.0;
    var name := if food.Some? && food.value.name != "" then food.value.name else "Item";
    EmailRow(name, qty, price, price * qty as real)
  }

  function Rows(c: Catalog, items: seq<OrderItem>): (rows: seq<EmailRow>)
    ensures |rows| == |items|
    ensures forall k :: 0 <= k < |items| ==> rows[k] == RowFor(items[k], Populated(c, items[k].food))
  {
    if items == [] then [] else [RowFor(items[0], Populated(c, items[0].food))] + Rows(c, items[1..])
  }

  function RowsTotal(rows: seq<EmailRow>): real
  {
    if rows == [] then 0.0 else rows[0].lineTotal + RowsTotal(rows[1..])
  }

  /** When every line's food still exists at the price the order recorded, the e-mail's line totals add
      up to the order's own line totals. */
  lemma {:induction false} RowsAgreeWithOrder(c: Catalog, items: seq<OrderItem>)
    requires forall k :: 0 <= k < |items| ==>
      items[k].food in c.foods && c.foods[items[k].food].price == items[k].price &&
      items[k].quantity >= 1 && items[k].total == items[k].price * items[k].quantity as real
    ensures RowsTotal(Rows(c, items)) == ItemsTotal(items)
  {
    if items != [] {
      RowsAgreeWithOrder(c, items[1..]);
      assert Rows(c, items)[1..] == Rows(c, items[1..]);
    }
  }

  datatype Mail = Mail(from: string, to: string, subject: string, rows: seq<EmailRow>, grandTotal: real, status: string)

  datatype EmailOutcome = NotConfigured | NoRecipients | Sent(mail: Mail)

  function Subject(o: Order): string
  {
    "New order #" + o.id + " - " + (if o.customerName != "" then o.customerName else "Customer")
  }

  function OrderMail(env: Env, o: Order, c: Catalog, to: seq<string>): Mail
  {
    Mail(env.fromEmail, Join(to, ','), Subject(o), Rows(c, o.items), o.totalAmount,
         if o.status != "" then o.status else "Pending")
  }

  /** The transporter `getTransporter` hands out: the cached one, else a new one when configured. */
  function NextTransporter(cached: Option<Transporter>, env: Env): (t: Option<Transporter>)
    ensures cached.Some? ==> t == cached
    ensures t.Some? <==> cached.Some? || IsEmailConfigured(env)
  {
    if cached.Some? then cached else if IsEmailConfigured(env) then Some(TransporterFor(env)) else None
  }

  /** `sendOrderPlacedEmail` throws: a transporter and recipients exist, and SMTP refuses the message. */
  predicate EmailFails(cached: Option<Transporter>, env: Env, adminsInDb: Result<seq<string>>, smtpError: Option<string>)
  {
    NextTransporter(cached, env).Some? && AdminRecipients(adminsInDb, env.adminEmails) != [] && smtpError.Some?
  }

  /** The message `sendOrderPlacedEmail` hands to SMTP, if it gets that far and SMTP accepts it. */
  function EmailsSent(cached: Option<Transporter>, env: Env, adminsInDb: Result<seq<string>>, smtpError: Option<string>,
                      o: Order, c: Catalog): seq<Mail>
  {
    var to := AdminRecipients(adminsInDb, env.adminEmails);
    if NextTransporter(cached, env).Some? && to != [] && smtpError.None? then [OrderMail(env, o, c, to)] else []
  }

  /** The four outcomes of `sendOrderPlacedEmail` in brief: it throws exactly when SMTP refuses a message
      it was asked to send, and the outbox grows by `EmailsSent`. */
  lemma SendOutcomes(cached: Option<Transporter>, env: Env, adminsInDb: Result<seq<string>>, smtpError: Option<string>,
                     o: Order, c: Catalog, r: Result<EmailOutcome>, before: seq<Mail>, after: seq<Mail>)
    requires var t := NextTransporter(cached, env); var to := AdminRecipients(adminsInDb, env.adminEmails);
      (t.None? ==> r == Ok(NotConfigured) && after == before) &&
      (t.Some? && to == [] ==> r == Ok(NoRecipients) && after == before) &&
      (t.Some? && to != [] && smtpError.Some? ==> r == Err(smtpError.value) && after == before) &&
      (t.Some? && to != [] && smtpError.None? ==> r == Ok(Sent(OrderMail(env, o, c, to))) && after == before + [OrderMail(env, o, c, to)])
    ensures r.Err? <==> EmailFails(cached, env, adminsInDb, smtpError)
    ensures after == before + EmailsSent(cached, env, adminsInDb, smtpError, o, c)
  {
  }

  /** The module state: the cached transporter, how many were created, and the messages handed to SMTP. */
  class Mailer {
    var cached: Option<Transporter>
    var created: nat
    var outbox: seq<Mail>

    /** At most one transporter is ever created, and it is the cached one. */
    ghost predicate Valid()
      reads this
    {
      created <= 1 && (created == 0 <==> cached.None?)
    }

    constructor ()
      ensures Valid() && cached == None && created == 0 && outbox == []
    {
      cached, created, outbox := None, 0, [];
    }

    /** `getTransporter`: the cached transporter if there is one (whatever the environment now says);
        otherwise null when SMTP is not configured, or a new transporter that is cached from now on. */
    method GetTransporter(env: Env) returns (t: Option<Transporter>)
      requires Valid()
      modifies this`cached, this`created
      ensures Valid()
      ensures t == NextTransporter(old(cached), env) && cached == t
      ensures created == if old(cached).None? && t.Some? then old(created) + 1 else old(created)
    {
      t := NextTransporter(cached, env);
      if cached.None? && t.Some? {
        created := created + 1;
      }
      cached := t;
    }

    /** `sendOrderPlacedEmail`: skipped without a transporter or without recipients; otherwise handed to
        SMTP, whose failure (`smtpError`) is rethrown. */
    method SendOrderPlacedEmail(env: Env, o: Order, c: Catalog, adminsInDb: Result<seq<string>>, smtpError: Option<string>)
      returns (r: Result<EmailOutcome>)
      requires Valid()
      modifies this
      ensures Valid()
      ensures cached == NextTransporter(old(cached), env)
      ensures cached.None? ==> r == Ok(NotConfigured) && outbox == old(outbox)
      ensures cached.Some? && AdminRecipients(adminsInDb, env.adminEmails) == [] ==>
        r == Ok(NoRecipients) && outbox == old(outbox)
      ensures cached.Some? && AdminRecipients(adminsInDb, env.adminEmails) != [] && smtpError.Some? ==>
        r == Err(smtpError.value) && outbox == old(outbox)
      ensures cached.Some? && AdminRecipients(adminsInDb, env.adminEmails) != [] && smtpError.None? ==>
        var mail := OrderMail(env, o, c, AdminRecipients(adminsInDb, env.adminEmails));
        r == Ok(Sent(mail)) && outbox == old(outbox) + [mail]
    {
      var transporter := GetTransporter(env);
      if transporter.None? {
        return Ok(NotConfigured);
      }
      var to := AdminRecipients(adminsInDb, env.adminEmails);
      if to == [] {
        return Ok(NoRecipients);
      }
      if smtpError.Some? {
        return Err(smtpError.value);
      }
      var mail := OrderMail(env, o, c, to);
      outbox := outbox + [mail];
      r := Ok(Sent(mail));
    }
  }
}
