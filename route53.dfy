/** The private DNS names of the two fronts and the endpoint outputs. */
module Route53Plan {
  import opened Wrappers
  import opened Wiring

  const DefaultZoneName := "svc.local"
  const DefaultExternalRecordName := "external"
  const DefaultInternalRecordName := "internal"

  /** An alias A record in the private zone, pointing at an ALB field. */
  datatype AliasRecord = AliasRecord(id: string, recordName: string, target: Option<LoadBalancer>)

  /** A stack output: the DNS name of an ALB field behind "http://", or a literal URL. */
  datatype OutputValue = HttpAlbDnsName(alb: Option<LoadBalancer>) | Url(url: string)
  datatype Output = Output(id: string, value: OutputValue)

  /** The endpoint of a front inside the VPC. */
  function PrivateEndpoint(recordName: string, zoneName: string): (url: string)
    ensures |url| == 7 + |recordName| + 1 + |zoneName|
    ensures url[..7] == "http://" && url[7..7 + |recordName|] == recordName
    ensures url[7 + |recordName|] == '.' && url[8 + |recordName|..] == zoneName
  {
    "http://" + recordName + "." + zoneName
  }

  /** The alias records: the internal one first, each emitted exactly when its
      front is needed. */
  function AliasRecords(hasInternal: bool, hasExternal: bool, internalRecordName: string, externalRecordName: string,
                        internalAlb: Option<LoadBalancer>, externalAlb: Option<LoadBalancer>): (r: seq<AliasRecord>)
    ensures |r| == (if hasInternal then 1 else 0) + (if hasExternal then 1 else 0)
  {
    (if hasInternal then [AliasRecord("InternalAlbAlias", internalRecordName, internalAlb)] else [])
    + (if hasExternal then [AliasRecord("ExternalAlbAlias", externalRecordName, externalAlb)] else [])
  }

  /** The endpoint outputs: the external pair first, each pair emitted exactly when
      its front is needed. */
  function EndpointOutputs(hasExternal: bool, hasInternal: bool, externalRecordName: string, internalRecordName: string,
                           zoneName: string, externalAlb: Option<LoadBalancer>, internalAlb: Option<LoadBalancer>): (r: seq<Output>)
    ensures |r| == (if hasExternal then 2 else 0) + (if hasInternal then 2 else 0)
  {
    (if hasExternal then
       [Output("ExternalEndpoint", HttpAlbDnsName(externalAlb)),
        Output("ExternalEndpointPrivate", Url(PrivateEndpoint(externalRecordName, zoneName)))]
     else [])
    + (if hasInternal then
         [Output("InternalEndpoint", HttpAlbDnsName(internalAlb)),
          Output("InternalEndpointPrivate", Url(PrivateEndpoint(internalRecordName, zoneName)))]
       else [])
  }

  /** Each alias record is emitted exactly when its front is needed, and only those. */
  lemma AliasRecordsPerFront(hasInternal: bool, hasExternal: bool, internalRecordName: string,
                             externalRecordName: string, internalAlb: Option<LoadBalancer>,
                             externalAlb: Option<LoadBalancer>)
    ensures var r := AliasRecords(hasInternal, hasExternal, internalRecordName, externalRecordName,
                                  internalAlb, externalAlb);
      && (|r| == (if hasInternal then 1 else 0) + (if hasExternal then 1 else 0))
      && (hasInternal <==> AliasRecord("InternalAlbAlias", internalRecordName, internalAlb) in r)
      && (hasExternal <==> AliasRecord("ExternalAlbAlias", externalRecordName, externalAlb) in r)
      && (forall k :: 0 <= k < |r| ==>
            r[k] == AliasRecord("InternalAlbAlias", internalRecordName, internalAlb)
            || r[k] == AliasRecord("ExternalAlbAlias", externalRecordName, externalAlb))
  {
  }

  /** Each pair of endpoint outputs is emitted exactly when its front is needed. */
  lemma EndpointOutputsPerFront(hasExternal: bool, hasInternal: bool, externalRecordName: string,
                                internalRecordName: string, zoneName: string,
                                externalAlb: Option<LoadBalancer>, internalAlb: Option<LoadBalancer>)
    ensures var r := EndpointOutputs(hasExternal, hasInternal, externalRecordName, internalRecordName,
                                     zoneName, externalAlb, internalAlb);
      && (|r| == (if hasExternal then 2 else 0) + (if hasInternal then 2 else 0))
      && (hasExternal <==> Output("ExternalEndpoint", HttpAlbDnsName(externalAlb)) in r)
      && (hasExternal <==> Output("ExternalEndpointPrivate", Url(PrivateEndpoint(externalRecordName, zoneName))) in r)
      && (hasInternal <==> Output("InternalEndpoint", HttpAlbDnsName(internalAlb)) in r)
      && (hasInternal <==> Output("InternalEndpointPrivate", Url(PrivateEndpoint(internalRecordName, zoneName))) in r)
  {
  }

  /** The alias records and endpoint outputs, emitted front by front. */
  method EmitRoute53(hasExternal: bool, hasInternal: bool, externalRecordName: string, internalRecordName: string,
                     zoneName: string, externalAlb: Option<LoadBalancer>, internalAlb: Option<LoadBalancer>)
    returns (records: seq<AliasRecord>, outputs: seq<Output>)
    ensures records == AliasRecords(hasInternal, hasExternal, internalRecordName, externalRecordName,
                                    internalAlb, externalAlb)
    ensures outputs == EndpointOutputs(hasExternal, hasInternal, externalRecordName, internalRecordName,
                                       zoneName, externalAlb, internalAlb)
  {
    records := [];
    if hasInternal {
      records := records + [AliasRecord("InternalAlbAlias", internalRecordName, internalAlb)];
    }
    if hasExternal {
      records := records + [AliasRecord("ExternalAlbAlias", externalRecordName, externalAlb)];
    }
    outputs := [];
    if hasExternal {
      outputs := outputs + [Output("ExternalEndpoint", HttpAlbDnsName(externalAlb)),
                            Output("ExternalEndpointPrivate", Url(PrivateEndpoint(externalRecordName, zoneName)))];
    }
    if hasInternal {
      outputs := outputs + [Output("InternalEndpoint", HttpAlbDnsName(internalAlb)),
                            Output("InternalEndpointPrivate", Url(PrivateEndpoint(internalRecordName, zoneName)))];
    }
  }

  /** Every alias record and every ALB output names a present ALB when the ALB
      fields were created from the same flags. */
  lemma RecordsAndOutputsHaveTheirAlb(hasExternal: bool, hasInternal: bool, externalRecordName: string,
                                      internalRecordName: string, zoneName: string,
                                      externalAlb: Option<LoadBalancer>, internalAlb: Option<LoadBalancer>)
    requires externalAlb.Some? == hasExternal && internalAlb.Some? == hasInternal
    ensures var records := AliasRecords(hasInternal, hasExternal, internalRecordName, externalRecordName,
                                        internalAlb, externalAlb);
      forall rec :: rec in records ==> rec.target.Some?
    ensures var outputs := EndpointOutputs(hasExternal, hasInternal, externalRecordName, internalRecordName,
                                           zoneName, externalAlb, internalAlb);
      forall o :: o in outputs && o.value.HttpAlbDnsName? ==> o.value.alb.Some?
  {
  }
}
