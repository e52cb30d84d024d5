/** The validating webhook of InternalCertificate. */
module Admission {
  import opened Options
  import opened Faults
  import opened Environment

  datatype FieldError = FieldError(path: string, detail: string)

  datatype StatusError = Invalid(group: string, kind: string, name: string, errs: seq<FieldError>)

  const FIELD_PATH := "spec.certificate"
  const DETAIL := "clientAuth and serverAuth cannot both be true or both be false"

  function ValidateCertificate(cr: CertResource, path: string): Option<FieldError> {
    if cr.serverAuth == cr.clientAuth then Some(FieldError(path, DETAIL)) else None
  }

  function ValidateInternalCertificate(name: Name, cr: CertResource): Option<StatusError> {
    var errs := match ValidateCertificate(cr, FIELD_PATH) { case Some(e) => [e] case None => [] };
    if |errs| == 0 then None else Some(Invalid("sip.sec.com", "InternalCertificate", name.id, errs))
  }

  function ValidateCreate(name: Name, cr: CertResource): Option<StatusError> {
    ValidateInternalCertificate(name, cr)
  }

  function ValidateUpdate(name: Name, was: CertResource, cr: CertResource): Option<StatusError> {
    ValidateInternalCertificate(name, cr)
  }

  // The webhook decides whether a create or an update reaches the store.
  function Submit(certs: map<Name, CertResource>, name: Name, cr: CertResource): map<Name, CertResource> {
    var verdict := if name in certs then ValidateUpdate(name, certs[name], cr) else ValidateCreate(name, cr);
    if verdict.None? then certs[name := cr] else certs
  }

  predicate OneUsage(cr: CertResource) {
    cr.clientAuth != cr.serverAuth
  }

  // A create or an update is accepted exactly when it asks for one usage, whatever was stored
  // before; a refusal names one field.
  lemma AdmittedIffOneUsage(name: Name, was: CertResource, cr: CertResource)
    ensures ValidateCreate(name, cr).None? <==> OneUsage(cr)
    ensures ValidateUpdate(name, was, cr) == ValidateCreate(name, cr)
    ensures ValidateCreate(name, cr).Some? ==> |ValidateCreate(name, cr).value.errs| == 1
  {
  }

  lemma SubmitKeepsOneUsage(certs: map<Name, CertResource>, name: Name, cr: CertResource)
    requires forall n :: n in certs ==> OneUsage(certs[n])
    ensures forall n :: n in Submit(certs, name, cr) ==> OneUsage(Submit(certs, name, cr)[n])
    ensures name in Submit(certs, name, cr) && Submit(certs, name, cr)[name] == cr ==> OneUsage(cr)
  {
  }

  // What is admitted is stored under its name and replaces nothing else; what is refused leaves the
  // store as it was, and the refusal names the resource, the field and the reason.
  lemma SubmitStoresIffOneUsage(certs: map<Name, CertResource>, name: Name, was: CertResource, cr: CertResource)
    ensures Submit(certs, name, cr) == if cr.clientAuth != cr.serverAuth then certs[name := cr] else certs
    ensures cr.clientAuth == cr.serverAuth ==>
      ValidateCreate(name, cr) == Some(Invalid("sip.sec.com", "InternalCertificate", name.id,
        [FieldError("spec.certificate", "clientAuth and serverAuth cannot both be true or both be false")]))
    ensures ValidateUpdate(name, was, cr) == ValidateCreate(name, cr)
  {
  }
}
