/**
 * The byte keys under which the contracts store their values: a constant prefix,
 * the ids, and separators or field suffixes. The contract models keep one map per
 * prefix, keyed by the ids themselves; the lemmas here say when that is the same
 * as the single byte-keyed store of the contracts and when two different ids share
 * a key.
 */
module StorageKeys {
  import opened Common
  import Text

  // Investor share ledger (contracts/InvestorShare.py)
  const AllocPrefix := "invshare:alloc:"
  const RedeemPrefix := "invshare:redeem:"
  const TotalAllocPrefix := "invshare:total_alloc:"
  const TotalRedeemPrefix := "invshare:total_redeem:"

  function AllocKey(invoiceId: Id, investor: Id): string { AllocPrefix + invoiceId + "|" + investor }
  function RedeemKey(invoiceId: Id, investor: Id): string { RedeemPrefix + invoiceId + "|" + investor }
  function TotalAllocKey(invoiceId: Id): string { TotalAllocPrefix + invoiceId }
  function TotalRedeemKey(invoiceId: Id): string { TotalRedeemPrefix + invoiceId }

  // Exporter registry (contracts/ExporterRegistry.py)
  const ProfilePrefix := "exp:profile:"
  const LinkPrefix := "exp:link:"

  function ProfileKey(exporterId: Id): string { ProfilePrefix + exporterId }
  function LinkKey(exporterId: Id, invoiceId: Id): string { LinkPrefix + exporterId + ":" + invoiceId }

  // Importer terms (contracts/ImporterTerms.py)
  const TermsPrefix := "imp:terms:"
  const ConfirmedPrefix := "imp:confirmed:"
  const ImporterPrefix := "imp:profile:"

  function TermsKey(invoiceId: Id): string { TermsPrefix + invoiceId }
  function YieldKey(invoiceId: Id): string { TermsKey(invoiceId) + ":yield" }
  function TermsImporterKey(invoiceId: Id): string { TermsKey(invoiceId) + ":importer" }
  function ConfirmedKey(invoiceId: Id): string { ConfirmedPrefix + invoiceId }
  function ImporterKey(importerId: Id): string { ImporterPrefix + importerId }

  // Due-diligence registry (contracts/DDRegistry.py)
  const ExporterDdPrefix := "dd:exp:"
  const InvoiceDdPrefix := "dd:inv:"
  const ExporterVerifiedPrefix := "dd:verified:exp:"
  const InvoiceVerifiedPrefix := "dd:verified:inv:"
  const ExporterDdFields := [":tier", ":merkle", ":status"]
  const InvoiceDdFields := [":status", ":hash", ":bl", ":po", ":ins"]

  function ExporterDdKey(exporterId: Id, field: string): string { ExporterDdPrefix + exporterId + field }
  function InvoiceDdKey(invoiceId: Id, field: string): string { InvoiceDdPrefix + invoiceId + field }
  function ExporterVerifiedKey(exporterId: Id): string { ExporterVerifiedPrefix + exporterId }
  function InvoiceVerifiedKey(invoiceId: Id): string { InvoiceVerifiedPrefix + invoiceId }

  /** Keys whose prefixes differ at some position are different. */
  lemma PrefixesDiffer(p: string, x: string, q: string, y: string, k: nat)
    requires k < |p| && k < |q| && p[k] != q[k]
    ensures p + x != q + y
  {
    assert (p + x)[k] == p[k];
    assert (q + y)[k] == q[k];
  }

  lemma PrefixCancel(p: string, x: string, y: string)
    ensures p + x == p + y <==> x == y
  {
    if p + x == p + y {
      assert (p + x)[|p|..] == x;
      assert (p + y)[|p|..] == y;
    }
  }

  /** Two ids joined by a separator that the first id does not contain can be told apart again. */
  lemma SeparatedPairInjective(x1: string, y1: string, x2: string, y2: string, sep: char)
    requires sep !in x1 && sep !in x2
    ensures x1 + [sep] + y1 == x2 + [sep] + y2 <==> x1 == x2 && y1 == y2
  {
    Text.SplitOnceJoin(x1, sep, y1);
    Text.SplitOnceJoin(x2, sep, y2);
  }

  /** Past its first character a field suffix holds no ':'. */
  lemma ColonAtSuffixStart(x: string, f: string, k: nat)
    requires |f| > 0 && ':' !in f[1..]
    requires |x| < k < |x| + |f|
    ensures (x + f)[k] != ':'
  {
    assert (x + f)[k] == f[1..][k - |x| - 1];
  }

  /** An id followed by a field suffix that holds ':' only in front can be told apart again. */
  lemma {:induction false} FieldSuffixInjective(x1: string, f1: string, x2: string, f2: string)
    requires |f1| > 0 && f1[0] == ':' && ':' !in f1[1..]
    requires |f2| > 0 && f2[0] == ':' && ':' !in f2[1..]
    ensures x1 + f1 == x2 + f2 <==> x1 == x2 && f1 == f2
  {
    if x1 + f1 == x2 + f2 {
      var s := x1 + f1;
      if |f1| < |f2| {
        ColonAtSuffixStart(x2, f2, |x1|);
        assert false;
      } else if |f2| < |f1| {
        ColonAtSuffixStart(x1, f1, |x2|);
        assert false;
      }
      assert x1 == s[..|x1|] == x2;
      assert f1 == s[|x1|..] == f2;
    }
  }

  /** Without '|' in invoice ids, each (invoice, investor) pair has its own allocation key. */
  lemma AllocKeyInjective(i1: Id, a1: Id, i2: Id, a2: Id)
    requires '|' !in i1 && '|' !in i2
    ensures AllocKey(i1, a1) == AllocKey(i2, a2) <==> i1 == i2 && a1 == a2
  {
    assert AllocKey(i1, a1) == AllocPrefix + (i1 + "|" + a1);
    assert AllocKey(i2, a2) == AllocPrefix + (i2 + "|" + a2);
    PrefixCancel(AllocPrefix, i1 + "|" + a1, i2 + "|" + a2);
    SeparatedPairInjective(i1, a1, i2, a2, '|');
  }

  /** With a '|' in an id, two different pairs read and write the same allocation. */
  lemma AllocKeyCollision()
    ensures ("a|b", "c") != ("a", "b|c")
    ensures AllocKey("a|b", "c") == AllocKey("a", "b|c")
    ensures RedeemKey("a|b", "c") == RedeemKey("a", "b|c")
  {
  }

  /** The four prefixes of the share ledger never produce the same key. */
  lemma ShareKeysDisjoint(i: Id, a: Id, j: Id, b: Id, t: Id, u: Id)
    ensures AllocKey(i, a) != RedeemKey(j, b)
    ensures AllocKey(i, a) != TotalAllocKey(t) && AllocKey(i, a) != TotalRedeemKey(u)
    ensures RedeemKey(j, b) != TotalAllocKey(t) && RedeemKey(j, b) != TotalRedeemKey(u)
    ensures TotalAllocKey(t) != TotalRedeemKey(u)
  {
    assert AllocKey(i, a) == AllocPrefix + (i + "|" + a);
    assert RedeemKey(j, b) == RedeemPrefix + (j + "|" + b);
    PrefixesDiffer(AllocPrefix, i + "|" + a, RedeemPrefix, j + "|" + b, 9);
    PrefixesDiffer(AllocPrefix, i + "|" + a, TotalAllocPrefix, t, 9);
    PrefixesDiffer(AllocPrefix, i + "|" + a, TotalRedeemPrefix, u, 9);
    PrefixesDiffer(RedeemPrefix, j + "|" + b, TotalAllocPrefix, t, 9);
    PrefixesDiffer(RedeemPrefix, j + "|" + b, TotalRedeemPrefix, u, 9);
    PrefixesDiffer(TotalAllocPrefix, t, TotalRedeemPrefix, u, 15);
  }

  /** Without ':' in exporter ids, each (exporter, invoice) pair has its own link key. */
  lemma LinkKeyInjective(e1: Id, i1: Id, e2: Id, i2: Id)
    requires ':' !in e1 && ':' !in e2
    ensures LinkKey(e1, i1) == LinkKey(e2, i2) <==> e1 == e2 && i1 == i2
  {
    assert LinkKey(e1, i1) == LinkPrefix + (e1 + ":" + i1);
    assert LinkKey(e2, i2) == LinkPrefix + (e2 + ":" + i2);
    PrefixCancel(LinkPrefix, e1 + ":" + i1, e2 + ":" + i2);
    SeparatedPairInjective(e1, i1, e2, i2, ':');
  }

  /** With a ':' in an exporter id, linking one pair also links another. */
  lemma LinkKeyCollision()
    ensures ("a:b", "c") != ("a", "b:c")
    ensures LinkKey("a:b", "c") == LinkKey("a", "b:c")
  {
  }

  /** Profile keys and link keys never meet, and profile keys are one per exporter. */
  lemma ExporterKeysDisjoint(e: Id, f: Id, i: Id)
    ensures ProfileKey(e) != LinkKey(f, i)
    ensures ProfileKey(e) == ProfileKey(f) <==> e == f
  {
    assert LinkKey(f, i) == LinkPrefix + (f + ":" + i);
    PrefixesDiffer(ProfilePrefix, e, LinkPrefix, f + ":" + i, 4);
    PrefixCancel(ProfilePrefix, e, f);
  }

  /** The terms record of invoice `X:yield` is stored where the yield of invoice `X` is. */
  lemma TermsKeyCollision(invoiceId: Id)
    ensures TermsKey(invoiceId + ":yield") == YieldKey(invoiceId)
    ensures TermsKey(invoiceId + ":importer") == TermsImporterKey(invoiceId)
  {
  }

  /**
   * The keys under the terms prefix (record, yield and importer) never meet a
   * confirmation key or an importer profile key, and those two never meet each other.
   */
  lemma TermsKeysDisjoint(i: Id, j: Id, k: Id)
    ensures TermsKey(i) != ConfirmedKey(j) && TermsKey(i) != ImporterKey(k)
    ensures YieldKey(i) != ConfirmedKey(j) && YieldKey(i) != ImporterKey(k)
    ensures TermsImporterKey(i) != ConfirmedKey(j) && TermsImporterKey(i) != ImporterKey(k)
    ensures ConfirmedKey(j) != ImporterKey(k)
  {
    assert YieldKey(i) == TermsPrefix + (i + ":yield");
    assert TermsImporterKey(i) == TermsPrefix + (i + ":importer");
    PrefixesDiffer(TermsPrefix, i, ConfirmedPrefix, j, 4);
    PrefixesDiffer(TermsPrefix, i, ImporterPrefix, k, 4);
    PrefixesDiffer(TermsPrefix, i + ":yield", ConfirmedPrefix, j, 4);
    PrefixesDiffer(TermsPrefix, i + ":yield", ImporterPrefix, k, 4);
    PrefixesDiffer(TermsPrefix, i + ":importer", ConfirmedPrefix, j, 4);
    PrefixesDiffer(TermsPrefix, i + ":importer", ImporterPrefix, k, 4);
    PrefixesDiffer(ConfirmedPrefix, j, ImporterPrefix, k, 4);
  }

  /** Every field of every exporter has its own key (the suffixes hold ':' only in front). */
  lemma ExporterDdKeyInjective(e1: Id, f1: string, e2: Id, f2: string)
    requires f1 in ExporterDdFields && f2 in ExporterDdFields
    ensures ExporterDdKey(e1, f1) == ExporterDdKey(e2, f2) <==> e1 == e2 && f1 == f2
  {
    assert ExporterDdKey(e1, f1) == ExporterDdPrefix + (e1 + f1);
    assert ExporterDdKey(e2, f2) == ExporterDdPrefix + (e2 + f2);
    PrefixCancel(ExporterDdPrefix, e1 + f1, e2 + f2);
    FieldSuffixInjective(e1, f1, e2, f2);
  }

  /** Every field of every invoice has its own key. */
  lemma InvoiceDdKeyInjective(i1: Id, f1: string, i2: Id, f2: string)
    requires f1 in InvoiceDdFields && f2 in InvoiceDdFields
    ensures InvoiceDdKey(i1, f1) == InvoiceDdKey(i2, f2) <==> i1 == i2 && f1 == f2
  {
    assert InvoiceDdKey(i1, f1) == InvoiceDdPrefix + (i1 + f1);
    assert InvoiceDdKey(i2, f2) == InvoiceDdPrefix + (i2 + f2);
    PrefixCancel(InvoiceDdPrefix, i1 + f1, i2 + f2);
    FieldSuffixInjective(i1, f1, i2, f2);
  }

  /** Exporter fields, invoice fields and the two verifier records never share a key. */
  lemma DdKeysDisjoint(e: Id, f: string, i: Id, g: string, x: Id, y: Id)
    ensures ExporterDdKey(e, f) != InvoiceDdKey(i, g)
    ensures ExporterDdKey(e, f) != ExporterVerifiedKey(x) && ExporterDdKey(e, f) != InvoiceVerifiedKey(y)
    ensures InvoiceDdKey(i, g) != ExporterVerifiedKey(x) && InvoiceDdKey(i, g) != InvoiceVerifiedKey(y)
    ensures ExporterVerifiedKey(x) != InvoiceVerifiedKey(y)
  {
    assert ExporterDdKey(e, f) == ExporterDdPrefix + (e + f);
    assert InvoiceDdKey(i, g) == InvoiceDdPrefix + (i + g);
    PrefixesDiffer(ExporterDdPrefix, e + f, InvoiceDdPrefix, i + g, 3);
    PrefixesDiffer(ExporterDdPrefix, e + f, ExporterVerifiedPrefix, x, 3);
    PrefixesDiffer(ExporterDdPrefix, e + f, InvoiceVerifiedPrefix, y, 3);
    PrefixesDiffer(InvoiceDdPrefix, i + g, ExporterVerifiedPrefix, x, 3);
    PrefixesDiffer(InvoiceDdPrefix, i + g, InvoiceVerifiedPrefix, y, 3);
    PrefixesDiffer(ExporterVerifiedPrefix, x, InvoiceVerifiedPrefix, y, 12);
  }
}
