/**
 * Certificates and keys as abstract values. Instants are nanoseconds; X.509 stores whole seconds
 * (section 4.1.2.5 of RFC 5280).
 */
module Certificates {
  import opened Prelude

  const SECOND: int := 1_000_000_000
  const MINUTE: int := 60 * SECOND
  const DAY: int := 24 * 60 * MINUTE
  const CA_VALIDITY: int := 10 * 365 * DAY
  const SERVER_VALIDITY: int := 365 * DAY
  const RENEW_BEFORE: int := 30 * DAY
  const BACKDATE: int := 5 * MINUTE

  type KeyId = nat

  datatype Certificate = Certificate(issuer: KeyId, subject: KeyId, isCa: bool, san: string, notBefore: int,
      notAfter: int)

  /** The contents of one data entry of a Secret: a PEM block, or anything that does not parse. */
  datatype Blob = CertificatePem(cert: Certificate) | KeyPem(key: KeyId) | Junk(text: string)

  datatype Secret = Secret(annotations: map<string, string>, data: map<string, Blob>)

  /** A parsed CA: what ensureNamespaceCA returns. */
  datatype Ca = Ca(pem: Blob, cert: Certificate, key: KeyId)

  const CERT_HOST := "builder-hub.dev/cert-host"
  const CA_CRT := "ca.crt"
  const CA_KEY := "ca.key"
  const TLS_CRT := "tls.crt"
  const TLS_KEY := "tls.key"

  function Lookup(m: map<string, string>, k: string): string {
    if k in m then m[k] else ""
  }

  /** Encoding an instant in a certificate drops the fraction of a second. */
  function Truncated(t: int): int {
    t / SECOND * SECOND
  }

  /** parseCertAndKey: both entries must parse; it does not check that they belong together. */
  function Parse(data: map<string, Blob>, crt: string, key: string): Option<(Certificate, KeyId)> {
    if crt in data && data[crt].CertificatePem? && key in data && data[key].KeyPem?
    then Some((data[crt].cert, data[key].key))
    else None
  }

  /** generateCA; the clock is read once per bound. */
  function GenerateCa(key: KeyId, t1: int, t2: int): Ca {
    var cert := Certificate(key, key, true, "", Truncated(t1 - BACKDATE), Truncated(t2 + CA_VALIDITY));
    Ca(CertificatePem(cert), cert, key)
  }

  function CaSecret(ca: Ca): Secret {
    Secret(map[], map[CA_CRT := ca.pem, CA_KEY := KeyPem(ca.key)])
  }

  /** The CA a Secret holds, when it parses. */
  function ReadCa(s: Secret): Option<Ca> {
    match Parse(s.data, CA_CRT, CA_KEY)
    case None => None
    case Some((cert, key)) => Some(Ca(s.data[CA_CRT], cert, key))
  }

  /** signServerCert. */
  function SignServer(ca: Ca, host: string, key: KeyId, t1: int, t2: int): Certificate {
    Certificate(ca.key, key, false, host, Truncated(t1 - BACKDATE), Truncated(t2 + SERVER_VALIDITY))
  }

  function ServerData(ca: Ca, cert: Certificate): map<string, Blob> {
    map[CA_CRT := ca.pem, TLS_CRT := CertificatePem(cert), TLS_KEY := KeyPem(cert.subject)]
  }

  /** serverCertNeedsRenewal. */
  predicate NeedsRenewal(s: Secret, host: string, now: int) {
    if Lookup(s.annotations, CERT_HOST) != host then true
    else
      match Parse(s.data, TLS_CRT, TLS_KEY)
      case None => true
      case Some((cert, _)) => now + RENEW_BEFORE > cert.notAfter
  }

  /** Inside the validity window; both ends belong to it (section 4.1.2.5 of RFC 5280). */
  predicate ValidAt(cert: Certificate, t: int) {
    cert.notBefore <= t <= cert.notAfter
  }

  /** A two-certificate path: signed by the CA's key and both inside their windows (section 6.1 of RFC 5280). */
  predicate ChainValidAt(ca: Certificate, cert: Certificate, t: int) {
    ca.isCa && cert.issuer == ca.subject && ValidAt(ca, t) && ValidAt(cert, t)
  }

  /** A certificate that was just signed passes the renewal test for 335 days, less a second. */
  lemma FreshCertificateIsKept(ca: Ca, host: string, key: KeyId, t1: int, t2: int, now: int)
    requires t1 <= t2
    requires now <= t2 + 335 * 86_400 * 1_000_000_000 - 1_000_000_000
    ensures var cert := SignServer(ca, host, key, t1, t2);
            !NeedsRenewal(Secret(map[CERT_HOST := host], ServerData(ca, cert)), host, now)
  {
  }

  /**
   * A kept certificate names the host and stays valid for another 30 days, and nothing else is
   * checked: which CA signed it plays no part.
   */
  lemma KeptMeaning(s: Secret, host: string, now: int)
    ensures !NeedsRenewal(s, host, now) <==>
            Lookup(s.annotations, CERT_HOST) == host
            && Parse(s.data, TLS_CRT, TLS_KEY).Some?
            && now + RENEW_BEFORE <= Parse(s.data, TLS_CRT, TLS_KEY).value.0.notAfter
    ensures !NeedsRenewal(s, host, now) <==>
            && (if "builder-hub.dev/cert-host" in s.annotations
                then s.annotations["builder-hub.dev/cert-host"] == host
                else host == "")
            && "tls.crt" in s.data && s.data["tls.crt"].CertificatePem?
            && "tls.key" in s.data && s.data["tls.key"].KeyPem?
            && now + 30 * 86_400 * 1_000_000_000 <= s.data["tls.crt"].cert.notAfter
  {
  }

  /**
   * What a server certificate says: an end-entity certificate of the CA for the host, from five
   * minutes ago for 365 days.
   */
  lemma ServerCertificateIs(ca: Ca, host: string, key: KeyId, t: int)
    ensures var cert := SignServer(ca, host, key, t, t);
            && cert.issuer == ca.key && cert.subject == key && !cert.isCa && cert.san == host
            && cert.notBefore <= t - 300 * 1_000_000_000 < cert.notBefore + 1_000_000_000
            && cert.notAfter <= t + 365 * 86_400 * 1_000_000_000 < cert.notAfter + 1_000_000_000
            && cert.notBefore % 1_000_000_000 == 0 == cert.notAfter % 1_000_000_000
            && ServerData(ca, cert)
               == map["ca.crt" := ca.pem, "tls.crt" := CertificatePem(cert), "tls.key" := KeyPem(key)]
  {
  }

  /** What a CA says: self-signed, from five minutes ago for 3650 days; its Secret holds certificate and key. */
  lemma CaCertificateIs(key: KeyId, t: int)
    ensures var ca := GenerateCa(key, t, t);
            && ca.key == key && ca.pem == CertificatePem(ca.cert)
            && ca.cert.issuer == ca.cert.subject == key && ca.cert.isCa && ca.cert.san == ""
            && ca.cert.notBefore <= t - 300 * 1_000_000_000 < ca.cert.notBefore + 1_000_000_000
            && ca.cert.notAfter <= t + 3650 * 86_400 * 1_000_000_000 < ca.cert.notAfter + 1_000_000_000
            && ca.cert.notBefore % 1_000_000_000 == 0 == ca.cert.notAfter % 1_000_000_000
            && CaSecret(ca) == Secret(map[], map["ca.crt" := ca.pem, "ca.key" := KeyPem(key)])
  {
  }

  /**
   * A Secret holds a CA when both entries parse, whether or not they belong together; what is read
   * is what they say.
   */
  lemma ReadCaMeaning(s: Secret)
    ensures ReadCa(s).Some? <==>
            && "ca.crt" in s.data && s.data["ca.crt"].CertificatePem?
            && "ca.key" in s.data && s.data["ca.key"].KeyPem?
    ensures ReadCa(s).Some? ==>
              var ca := ReadCa(s).value;
              ca.pem == s.data["ca.crt"] && ca.cert == s.data["ca.crt"].cert && ca.key == s.data["ca.key"].key
  {
  }

  /**
   * The server window lies inside the CA window exactly when the certificate is issued no later
   * than the CA's expiry minus 365 days, up to the same truncation on both sides. The clock
   * is taken not to run backwards from CA issue to server issue.
   */
  lemma NestingIsExact(caKey: KeyId, c1: int, c2: int, host: string, key: KeyId, t1: int, t2: int)
    requires c1 <= c2 <= t1 <= t2
    ensures var ca := GenerateCa(caKey, c1, c2);
            var cert := SignServer(ca, host, key, t1, t2);
            (ca.cert.notBefore <= cert.notBefore && cert.notAfter <= ca.cert.notAfter)
            <==> Truncated(t2) <= ca.cert.notAfter - 365 * 86_400 * 1_000_000_000
  {
    WholeSecondsPass(t2, 365 * 86_400);
  }

  lemma WholeSecondsPass(t: int, seconds: int)
    ensures Truncated(t + seconds * SECOND) == Truncated(t) + seconds * SECOND
  {
    assert (t + seconds * SECOND) / SECOND == t / SECOND + seconds;
  }

  /** From its issue on, a certificate and its CA form a valid chain exactly until the earlier of their expiries. */
  lemma ChainValidWhileCaLasts(caKey: KeyId, c1: int, c2: int, host: string, key: KeyId, t1: int, t2: int, now: int)
    requires c1 <= c2 <= t1 <= t2 <= now
    ensures var ca := GenerateCa(caKey, c1, c2);
            var cert := SignServer(ca, host, key, t1, t2);
            ChainValidAt(ca.cert, cert, now) <==> now <= cert.notAfter && now <= ca.cert.notAfter
  {
  }

  /**
   * Nothing checks the CA's expiry at signing: a certificate signed after it is valid by itself,
   * but never in a chain.
   */
  lemma SignedAfterCaExpiry(caKey: KeyId, c1: int, c2: int, host: string, key: KeyId, t1: int, t2: int, now: int)
    requires t1 <= t2 <= now <= Truncated(t2 + SERVER_VALIDITY)
    requires Truncated(c2 + CA_VALIDITY) < t2
    ensures var ca, cert := GenerateCa(caKey, c1, c2), SignServer(GenerateCa(caKey, c1, c2), host, key, t1, t2);
            ValidAt(cert, now) && !ChainValidAt(ca.cert, cert, now)
  {
  }
}
