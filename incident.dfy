/**
 * The handler's two closures as they are written: each takes the incident
 * dictionary fetched from the platform, overwrites one key in place according
 * to the severity label, and hands the same dictionary back. Each method is
 * proved to do what the corresponding Policy rewrite defines.
 */
module Incident {
  import opened Values
  import opened Policy

  /** The locally fetched copy of an incident record, changed in place. */
  class IncidentCopy {
    var fields: Record

    constructor (fields: Record)
      ensures this.fields == fields
    {
      this.fields := fields;
    }

    /** `update_owner`: one branch per tier with its literal key, no branch for other labels. */
    method UpdateOwner(sev: Severity, options: Options)
      modifies this
      ensures fields == OwnerUpdate(sev, options, old(fields))
    {
      OwnerByTier(options, fields);
      if sev == High {
        fields := fields["owner_id" := Get(options, "high_owner")];
      } else if sev == Medium {
        fields := fields["owner_id" := Get(options, "medium_owner")];
      } else if sev == Low {
        fields := fields["owner_id" := Get(options, "low_owner")];
      }
    }

    /** `update_members`: one, two or three members by tier, no branch for other labels. */
    method UpdateMembers(sev: Severity, options: Options)
      modifies this
      ensures fields == MembersUpdate(sev, options, old(fields))
    {
      MembersByTier(options, fields);
      if sev == High {
        fields := fields["members" := List([Get(options, "high_member_1")])];
      } else if sev == Medium {
        fields := fields["members" := List([Get(options, "medium_member_1"),
                                            Get(options, "medium_member_2")])];
      } else if sev == Low {
        fields := fields["members" := List([Get(options, "low_member_1"),
                                            Get(options, "low_member_2"),
                                            Get(options, "low_member_3")])];
      }
    }

    /** Runs the closure a mutation stands for on this record. */
    method Apply(m: Mutation)
      modifies this
      ensures fields == m.Apply(old(fields))
    {
      match m
      case UpdateOwner(sev, options) => UpdateOwner(sev, options);
      case UpdateMembers(sev, options) => UpdateMembers(sev, options);
    }
  }
}
