/** The paging-incident data types. */
module Pagerduty {

  datatype IncidentDetails = IncidentDetails(fields: map<string, string>)

  datatype Incident = Incident(description: string, incidentKey: string, details: IncidentDetails)
}
