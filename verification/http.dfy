/** HTTP request methods and response statuses used by the facade and the sidecar. */
module Http {
  const MethodPost := "POST"
  const MethodPut := "PUT"

  const StatusOK := 200
  const StatusNotFound := 404
  const StatusInternalServerError := 500
}
