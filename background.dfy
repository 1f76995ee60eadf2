/**
 * The background worker's `fetchSalesforceRecord`: a placeholder snapshot
 * built like the REST helper's, with fewer type-specific fields.
 */
module Background {

  import opened Wrappers
  import opened Json
  import opened Records

  /** The fields `fetchSalesforceRecord` adds to an Account, in insertion order. */
  const AccountExtras: Fields :=
    Fields(["Type", "Industry", "Phone", "Website"],
           map["Type" := JString("Customer"), "Industry" := JString("Technology"), "Phone" := JString("555-0123"),
               "Website" := JString("https://example.com")])

  /** The fields `fetchSalesforceRecord` adds to a Contact, in insertion order. */
  const ContactExtras: Fields :=
    Fields(["Email", "Phone", "Title"],
           map["Email" := JString("contact@example.com"), "Phone" := JString("555-0124"), "Title" := JString("Manager")])

  /** The fields `fetchSalesforceRecord` adds to an Opportunity, in insertion order. */
  const OpportunityExtras: Fields :=
    Fields(["Amount", "StageName", "CloseDate"],
           map["Amount" := JNumber(50000), "StageName" := JString("Qualification"),
               "CloseDate" := JString("2024-03-15")])

  /** The Account table: its keys are new to the base fields. */
  lemma AccountExtrasFit()
    ensures ExtrasFit(AccountExtras)
  {
  }

  /** The Account table: its keys in this order, with these values. */
  lemma AccountExtrasLayout()
    ensures |AccountExtras.names| == 4
    ensures AccountExtras.names[0] == "Type" && AccountExtras.Get("Type") == Some(JString("Customer"))
    ensures AccountExtras.names[1] == "Industry" && AccountExtras.Get("Industry") == Some(JString("Technology"))
    ensures AccountExtras.names[2] == "Phone" && AccountExtras.Get("Phone") == Some(JString("555-0123"))
    ensures AccountExtras.names[3] == "Website" && AccountExtras.Get("Website") == Some(JString("https://example.com"))
  {
  }

  /** The Contact table: its keys are new to the base fields. */
  lemma ContactExtrasFit()
    ensures ExtrasFit(ContactExtras)
  {
  }

  /** The Contact table: its keys in this order, with these values. */
  lemma ContactExtrasLayout()
    ensures |ContactExtras.names| == 3
    ensures ContactExtras.names[0] == "Email" && ContactExtras.Get("Email") == Some(JString("contact@example.com"))
    ensures ContactExtras.names[1] == "Phone" && ContactExtras.Get("Phone") == Some(JString("555-0124"))
    ensures ContactExtras.names[2] == "Title" && ContactExtras.Get("Title") == Some(JString("Manager"))
  {
  }

  /** The Opportunity table: its keys are new to the base fields. */
  lemma OpportunityExtrasFit()
    ensures ExtrasFit(OpportunityExtras)
  {
  }

  /** The Opportunity table: its keys in this order, with these values. */
  lemma OpportunityExtrasLayout()
    ensures |OpportunityExtras.names| == 3
    ensures OpportunityExtras.names[0] == "Amount" && OpportunityExtras.Get("Amount") == Some(JNumber(50000))
    ensures OpportunityExtras.names[1] == "StageName" && OpportunityExtras.Get("StageName") == Some(JString("Qualification"))
    ensures OpportunityExtras.names[2] == "CloseDate" && OpportunityExtras.Get("CloseDate") == Some(JString("2024-03-15"))
  {
  }

  /** The fields `fetchSalesforceRecord` adds after the base fields, by object type; none for other types. */
  function ExtraFields(objectType: string): (r: Fields)
    ensures ExtrasFit(r)
  {
    if objectType == "Account" then (AccountExtrasFit(); AccountExtras)
    else if objectType == "Contact" then (ContactExtrasFit(); ContactExtras)
    else if objectType == "Opportunity" then (OpportunityExtrasFit(); OpportunityExtras)
    else EmptyObject
  }

  /** The branch of `fetchSalesforceRecord` for an Account: its table's assignments, in order. */
  method AddAccountFields(info: RecordInfo, base: Fields) returns (fields: Fields)
    requires IsPartialMock(info, AccountExtras, 0, base)
    ensures IsMockObject(info, AccountExtras, fields)
  {
    AccountExtrasFit();
    AccountExtrasLayout();
    fields := base;
    fields := AddMockField(info, AccountExtras, 0, fields, "Type", JString("Customer"));
    fields := AddMockField(info, AccountExtras, 1, fields, "Industry", JString("Technology"));
    fields := AddMockField(info, AccountExtras, 2, fields, "Phone", JString("555-0123"));
    fields := AddMockField(info, AccountExtras, 3, fields, "Website", JString("https://example.com"));
    MockDone(info, AccountExtras, fields);
  }

  /** The branch of `fetchSalesforceRecord` for a Contact: its table's assignments, in order. */
  method AddContactFields(info: RecordInfo, base: Fields) returns (fields: Fields)
    requires IsPartialMock(info, ContactExtras, 0, base)
    ensures IsMockObject(info, ContactExtras, fields)
  {
    ContactExtrasFit();
    ContactExtrasLayout();
    fields := base;
    fields := AddMockField(info, ContactExtras, 0, fields, "Email", JString("contact@example.com"));
    fields := AddMockField(info, ContactExtras, 1, fields, "Phone", JString("555-0124"));
    fields := AddMockField(info, ContactExtras, 2, fields, "Title", JString("Manager"));
    MockDone(info, ContactExtras, fields);
  }

  /** The branch of `fetchSalesforceRecord` for an Opportunity: its table's assignments, in order. */
  method AddOpportunityFields(info: RecordInfo, base: Fields) returns (fields: Fields)
    requires IsPartialMock(info, OpportunityExtras, 0, base)
    ensures IsMockObject(info, OpportunityExtras, fields)
  {
    OpportunityExtrasFit();
    OpportunityExtrasLayout();
    fields := base;
    fields := AddMockField(info, OpportunityExtras, 0, fields, "Amount", JNumber(50000));
    fields := AddMockField(info, OpportunityExtras, 1, fields, "StageName", JString("Qualification"));
    fields := AddMockField(info, OpportunityExtras, 2, fields, "CloseDate", JString("2024-03-15"));
    MockDone(info, OpportunityExtras, fields);
  }

  /**
   * `fetchSalesforceRecord`: the base object literal, one assignment per field
   * of the object type's table, then the snapshot around it. Nothing in its
   * body can throw, so the rejection path is never taken.
   */
  method FetchSalesforceRecord(info: RecordInfo) returns (snap: Snapshot)
    ensures IsMock(info, ExtraFields(info.objectType), snap)
  {
    var fields := MockBaseObject(info);
    if info.objectType == "Account" {
      MockStart(info, AccountExtras);
      fields := AddAccountFields(info, fields);
    } else if info.objectType == "Contact" {
      MockStart(info, ContactExtras);
      fields := AddContactFields(info, fields);
    } else if info.objectType == "Opportunity" {
      MockStart(info, OpportunityExtras);
      fields := AddOpportunityFields(info, fields);
    } else {
      MockStart(info, EmptyObject);
      MockDone(info, EmptyObject, fields);
    }
    snap := Snapshot(info.recordId, info.objectType, info.recordName, info.orgUrl, fields);
  }

  /** The exact keys of each object type's placeholder snapshot: no Billing fields, no Department, no Probability. */
  lemma MockKeys(info: RecordInfo, snap: Snapshot)
    requires IsMock(info, ExtraFields(info.objectType), snap)
    ensures info.objectType == "Account" ==>
      snap.fields.names == BaseFieldNames + ["Type", "Industry", "Phone", "Website"]
    ensures info.objectType == "Contact" ==>
      snap.fields.names == BaseFieldNames + ["Email", "Phone", "Title"]
    ensures info.objectType == "Opportunity" ==>
      snap.fields.names == BaseFieldNames + ["Amount", "StageName", "CloseDate"]
    ensures info.objectType !in {"Account", "Contact", "Opportunity"} ==> snap.fields.names == BaseFieldNames
  {
  }
}
