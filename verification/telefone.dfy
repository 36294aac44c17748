/**
 * Phone numbers of clients: the check the registration prompt applies to the typed
 * number (`Locadora.validar_telefone`) and the display form stored on the client
 * (`Cliente.formatar_telefone`).
 */
module Telefone {
  import opened Texto

  /** `telefone.isdigit() and len(telefone) == 11`. */
  function ValidarTelefone(t: string): (ok: bool)
    ensures ok <==> |t| == 11 && forall i :: 0 <= i < |t| ==> EhDigito(t[i])
  {
    SoDigitos(t) && |t| == 11
  }

  /** `f"({t[:2]}) {t[2:7]}-{t[7:]}"`, with Python's clamped slices. */
  function FormatarTelefone(t: string): (r: string)
    ensures |r| == |t| + 4
  {
    "(" + Fatia(t, 0, 2) + ") " + Fatia(t, 2, 7) + "-" + Fatia(t, 7, |t|)
  }

  /** The four characters the display form adds around the digits. */
  predicate EhPontuacao(c: char) {
    c == '(' || c == ')' || c == ' ' || c == '-'
  }

  /** Deletes every `(`, `)`, space and `-`: undoes the display form. */
  function RemoverPontuacao(s: string): (r: string)
    ensures |r| <= |s|
    ensures forall i :: 0 <= i < |r| ==> !EhPontuacao(r[i])
    ensures (forall i :: 0 <= i < |s| ==> !EhPontuacao(s[i])) ==> r == s
  {
    if s == [] then []
    else if EhPontuacao(s[0]) then RemoverPontuacao(s[1..])
    else [s[0]] + RemoverPontuacao(s[1..])
  }

  /** Deleting punctuation from a concatenation deletes it from each part. */
  lemma {:induction false} RemoverPontuacaoConcat(a: string, b: string)
    ensures RemoverPontuacao(a + b) == RemoverPontuacao(a) + RemoverPontuacao(b)
  {
    if a == [] {
      assert a + b == b;
    } else {
      assert (a + b)[0] == a[0];
      assert (a + b)[1..] == a[1..] + b;
      RemoverPontuacaoConcat(a[1..], b);
    }
  }

  /**
   * For an accepted number the display form is `(DD) DDDDD-DDDD`: 15 characters,
   * the area code, then five digits, then four.
   */
  lemma FormatoDeTelefoneValido(t: string)
    requires ValidarTelefone(t)
    ensures FormatarTelefone(t) == "(" + t[0..2] + ") " + t[2..7] + "-" + t[7..11]
    ensures |FormatarTelefone(t)| == 15
    ensures var r := FormatarTelefone(t);
      r[0] == '(' && r[3] == ')' && r[4] == ' ' && r[10] == '-'
      && (forall i :: 1 <= i < 3 || 5 <= i < 10 || 11 <= i < 15 ==> EhDigito(r[i]))
  {
    var r := FormatarTelefone(t);
    assert r == "(" + t[0..2] + ") " + t[2..7] + "-" + t[7..11];
    forall i | 1 <= i < 3 || 5 <= i < 10 || 11 <= i < 15 ensures EhDigito(r[i]) {
      if i < 3 { assert r[i] == t[i - 1]; }
      else if i < 10 { assert r[i] == t[i - 3]; }
      else { assert r[i] == t[i - 4]; }
    }
  }

  /** The three clamped slices of the display form put back together give the whole number. */
  lemma FatiasDoTelefone(t: string)
    ensures Fatia(t, 0, 2) + Fatia(t, 2, 7) + Fatia(t, 7, |t|) == t
  {
    if |t| <= 2 {
      assert Fatia(t, 0, 2) == t;
    } else if |t| <= 7 {
      assert t == t[..2] + t[2..];
    } else {
      assert t == t[..2] + t[2..7] + t[7..];
    }
  }

  /** Deleting punctuation from a string that starts with some only keeps the rest. */
  lemma RemoverPontuacaoAposPrefixo(p: string, s: string)
    requires forall i :: 0 <= i < |p| ==> EhPontuacao(p[i])
    ensures RemoverPontuacao(p + s) == RemoverPontuacao(s)
  {
    RemoverPontuacaoConcat(p, s);
    assert RemoverPontuacao(p) == [] by {
      if p != [] {
        RemoverPontuacaoSoPontuacao(p);
      }
    }
  }

  /** A string made only of punctuation disappears entirely. */
  lemma {:induction false} RemoverPontuacaoSoPontuacao(p: string)
    requires forall i :: 0 <= i < |p| ==> EhPontuacao(p[i])
    ensures RemoverPontuacao(p) == []
  {
    if p != [] {
      RemoverPontuacaoSoPontuacao(p[1..]);
    }
  }

  /** The punctuation the display form adds disappears, and only it. */
  lemma RemoverPontuacaoDoFormato(a: string, b: string, c: string)
    ensures RemoverPontuacao("(" + a + ") " + b + "-" + c)
         == RemoverPontuacao(a) + RemoverPontuacao(b) + RemoverPontuacao(c)
  {
    assert "(" + a + ") " + b + "-" + c == "(" + (a + (") " + (b + ("-" + c))));
    RemoverPontuacaoAposPrefixo("(", a + (") " + (b + ("-" + c))));
    RemoverPontuacaoConcat(a, ") " + (b + ("-" + c)));
    RemoverPontuacaoAposPrefixo(") ", b + ("-" + c));
    RemoverPontuacaoConcat(b, "-" + c);
    RemoverPontuacaoAposPrefixo("-", c);
  }

  /**
   * Deleting the punctuation from the display form gives back the number that was
   * formatted, whenever that number holds no punctuation itself (every accepted number).
   */
  lemma FormatarTelefoneIdaEVolta(t: string)
    requires forall i :: 0 <= i < |t| ==> !EhPontuacao(t[i])
    ensures RemoverPontuacao(FormatarTelefone(t)) == t
  {
    var a, b, c := Fatia(t, 0, 2), Fatia(t, 2, 7), Fatia(t, 7, |t|);
    FatiasDoTelefone(t);
    RemoverPontuacaoDoFormato(a, b, c);
    assert RemoverPontuacao(a) == a && RemoverPontuacao(b) == b && RemoverPontuacao(c) == c;
  }

  /** Two accepted numbers with the same display form are the same number. */
  lemma FormatarTelefoneInjetiva(t: string, u: string)
    requires ValidarTelefone(t) && ValidarTelefone(u)
    requires FormatarTelefone(t) == FormatarTelefone(u)
    ensures t == u
  {
    FormatarTelefoneIdaEVolta(t);
    FormatarTelefoneIdaEVolta(u);
  }
}
